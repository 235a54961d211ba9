/**
 * The NFT upload orchestrator. For each (image, metadata) pair it uploads the
 * image, writes the image's URI into the metadata, uploads the rewritten
 * metadata and returns the metadata's URI; a directory of images with one
 * array of metadata records is processed pair by pair in index order.
 *
 * The upload and rewrite collaborators are modelled as the tests set them up:
 * queues of transaction ids handed out one per call, and a record of every
 * call in the order it was made.
 */
module NftUploader {
  import opened Results
  import opened ArweaveUtils

  // ---------------------------------------------------------------------------
  // Metadata and its rewrite
  // ---------------------------------------------------------------------------

  /** A metadata record: field names to their (uninterpreted) JSON values. */
  type Metadata = map<string, string>

  /** The one field the system writes. */
  const ImageField: string := "image"

  /** A copy of `metadata` whose image field holds `uri`; every other field is kept. */
  function WithImageUri(metadata: Metadata, uri: string): (updated: Metadata)
    ensures ImageField in updated && updated[ImageField] == uri
    ensures updated.Keys == metadata.Keys + {ImageField}
    ensures forall k :: k in metadata && k != ImageField ==> updated[k] == metadata[k]
  {
    metadata[ImageField := uri]
  }

  // ---------------------------------------------------------------------------
  // Collaborators
  // ---------------------------------------------------------------------------

  /** A call made to a collaborator. */
  datatype Call =
    | UploadImage(imagePath: string)
    | Rewrite(record: Metadata, uri: string)
    | UploadMetadata(record: Metadata)

  /** The collaborators' state: the ids still queued for each kind of upload, and the calls so far. */
  datatype Services = Services(imageTxns: seq<Result<string>>, metadataTxns: seq<Result<string>>, calls: seq<Call>)

  const NoResponse: Error := NetworkError("no transaction id available")

  /** The next queued response and the rest of the queue; an empty queue fails the call. */
  function Pop(queue: seq<Result<string>>): (r: (Result<string>, seq<Result<string>>))
    ensures queue != [] ==> r == (queue[0], queue[1..])
    ensures queue == [] ==> r == (Err(NoResponse), [])
  {
    if queue == [] then (Err(NoResponse), []) else (queue[0], queue[1..])
  }

  /** The collaborators as objects the orchestrator calls. */
  class Collaborators {
    var imageTxns: seq<Result<string>>
    var metadataTxns: seq<Result<string>>
    var calls: seq<Call>

    function State(): (s: Services)
      reads this
    {
      Services(imageTxns, metadataTxns, calls)
    }

    constructor (imageTxns: seq<Result<string>>, metadataTxns: seq<Result<string>>)
      ensures State() == Services(imageTxns, metadataTxns, [])
    {
      this.imageTxns := imageTxns;
      this.metadataTxns := metadataTxns;
      calls := [];
    }

    method UploadImageFromPath(imagePath: string) returns (r: Result<string>)
      modifies this
      ensures (r, imageTxns) == Pop(old(imageTxns))
      ensures metadataTxns == old(metadataTxns)
      ensures calls == old(calls) + [UploadImage(imagePath)]
    {
      var (resp, rest) := Pop(imageTxns);
      r, imageTxns := resp, rest;
      calls := calls + [UploadImage(imagePath)];
    }

    method UploadSingleMetadata(record: Metadata) returns (r: Result<string>)
      modifies this
      ensures (r, metadataTxns) == Pop(old(metadataTxns))
      ensures imageTxns == old(imageTxns)
      ensures calls == old(calls) + [UploadMetadata(record)]
    {
      var (resp, rest) := Pop(metadataTxns);
      r, metadataTxns := resp, rest;
      calls := calls + [UploadMetadata(record)];
    }

    method UpdateMetadataWithImageURI(record: Metadata, uri: string) returns (updated: Metadata)
      modifies this
      ensures updated == WithImageUri(record, uri)
      ensures imageTxns == old(imageTxns) && metadataTxns == old(metadataTxns)
      ensures calls == old(calls) + [Rewrite(record, uri)]
    {
      updated := WithImageUri(record, uri);
      calls := calls + [Rewrite(record, uri)];
    }
  }

  // ---------------------------------------------------------------------------
  // The orchestration, as functions of the collaborators' state
  // ---------------------------------------------------------------------------

  /** The outcome of one pair and the collaborators' state afterwards. */
  datatype Reply = Reply(uri: Result<string>, state: Services)

  /** The three calls a successful pair makes, in order. */
  function PairCalls(imagePath: string, record: Metadata, imageUri: string): (calls: seq<Call>) {
    [UploadImage(imagePath), Rewrite(record, imageUri), UploadMetadata(WithImageUri(record, imageUri))]
  }

  /** Uploads one image and its metadata. */
  function PairStep(s: Services, imagePath: string, record: Metadata, isMainnet: bool): (r: Reply)
    ensures s.calls <= r.state.calls
  {
    var (image, imageRest) := Pop(s.imageTxns);
    var s1 := s.(imageTxns := imageRest, calls := s.calls + [UploadImage(imagePath)]);
    if image.Err? then Reply(Err(image.error), s1)
    else
      var imageUri := TxnUri(image.value, isMainnet);
      var updated := WithImageUri(record, imageUri);
      var (meta, metaRest) := Pop(s.metadataTxns);
      var s2 := s1.(metadataTxns := metaRest, calls := s.calls + PairCalls(imagePath, record, imageUri));
      if meta.Err? then Reply(Err(meta.error), s2) else Reply(Ok(TxnUri(meta.value, isMainnet)), s2)
  }

  /**
   * With an id queued for each upload, a pair uploads the image, rewrites the
   * metadata with the image's URI, uploads the rewritten record, and returns
   * the metadata's URI; each queue gives up exactly one id.
   */
  lemma PairStepOk(s: Services, imagePath: string, record: Metadata, isMainnet: bool, imageTx: string, metadataTx: string)
    requires s.imageTxns != [] && s.imageTxns[0] == Ok(imageTx)
    requires s.metadataTxns != [] && s.metadataTxns[0] == Ok(metadataTx)
    ensures PairStep(s, imagePath, record, isMainnet) == Reply(
      Ok(TxnUri(metadataTx, isMainnet)),
      Services(s.imageTxns[1..], s.metadataTxns[1..],
               s.calls + PairCalls(imagePath, record, TxnUri(imageTx, isMainnet))))
  {
  }

  /** A failed image upload ends the pair: no rewrite, no metadata upload, the error passed on. */
  lemma PairStepImageFails(s: Services, imagePath: string, record: Metadata, isMainnet: bool)
    requires Pop(s.imageTxns).0.Err?
    ensures PairStep(s, imagePath, record, isMainnet) == Reply(
      Err(Pop(s.imageTxns).0.error),
      Services(Pop(s.imageTxns).1, s.metadataTxns, s.calls + [UploadImage(imagePath)]))
  {
  }

  /**
   * A failed metadata upload after a successful image upload ends the pair
   * with that error, after all three calls of the pair have been made.
   */
  lemma PairStepMetadataFails(s: Services, imagePath: string, record: Metadata, isMainnet: bool, imageTx: string)
    requires s.imageTxns != [] && s.imageTxns[0] == Ok(imageTx)
    requires Pop(s.metadataTxns).0.Err?
    ensures PairStep(s, imagePath, record, isMainnet) == Reply(
      Err(Pop(s.metadataTxns).0.error),
      Services(s.imageTxns[1..], Pop(s.metadataTxns).1,
               s.calls + PairCalls(imagePath, record, TxnUri(imageTx, isMainnet))))
  {
  }

  /** The URIs of the pairs so far (or the first failure) and the collaborators' state. */
  datatype Progress = Progress(uris: Result<seq<string>>, state: Services)

  /** The first `k` pairs processed in index order, stopping at the first failure. */
  function RunPairs(s: Services, images: seq<string>, records: seq<Metadata>, isMainnet: bool, k: nat): (p: Progress)
    requires k <= |images| && k <= |records|
    ensures p.uris.Ok? ==> |p.uris.value| == k
    ensures s.calls <= p.state.calls
    decreases k
  {
    if k == 0 then Progress(Ok([]), s)
    else
      var prev := RunPairs(s, images, records, isMainnet, k - 1);
      if prev.uris.Err? then prev
      else
        var reply := PairStep(prev.state, images[k - 1], records[k - 1], isMainnet);
        if reply.uri.Err? then Progress(Err(reply.uri.error), reply.state)
        else Progress(Ok(prev.uris.value + [reply.uri.value]), reply.state)
  }

  /** Once a pair has failed, later pairs change nothing. */
  lemma {:induction false} RunPairsFailureSticks(s: Services, images: seq<string>, records: seq<Metadata>, isMainnet: bool, k: nat, n: nat)
    requires k <= n <= |images| && n <= |records|
    requires RunPairs(s, images, records, isMainnet, k).uris.Err?
    ensures RunPairs(s, images, records, isMainnet, n) == RunPairs(s, images, records, isMainnet, k)
    decreases n - k
  {
    if k < n {
      RunPairsFailureSticks(s, images, records, isMainnet, k, n - 1);
    }
  }

  const CountMismatch: string := "The count of images does not equal the count of metadata objects."

  /**
   * The directory upload: fails before any call when the counts differ,
   * otherwise processes every pair in index order.
   */
  function UploadDir(s: Services, images: seq<string>, records: seq<Metadata>, isMainnet: bool): (p: Progress)
    ensures |images| != |records| ==> p == Progress(Err(CardinalityError(CountMismatch)), s)
    ensures p.uris.Ok? ==> |p.uris.value| == |images| == |records|
    ensures s.calls <= p.state.calls
  {
    if |images| != |records| then Progress(Err(CardinalityError(CountMismatch)), s)
    else RunPairs(s, images, records, isMainnet, |images|)
  }

  // ---------------------------------------------------------------------------
  // The all-successful directory run in closed form
  // ---------------------------------------------------------------------------

  /** The formatted URIs of a list of ids, position by position. */
  function Uris(ids: seq<string>, isMainnet: bool): (uris: seq<string>)
    ensures |uris| == |ids|
    ensures forall i :: 0 <= i < |ids| ==> uris[i] == TxnUri(ids[i], isMainnet)
  {
    seq(|ids|, i requires 0 <= i < |ids| => TxnUri(ids[i], isMainnet))
  }

  /** The first `|ids|` responses queued in `queue` are successes carrying `ids`, in order. */
  predicate IdsQueued(queue: seq<Result<string>>, ids: seq<string>) {
    |ids| <= |queue| && forall i :: 0 <= i < |ids| ==> queue[i] == Ok(ids[i])
  }

  /** The calls of the first `k` successful pairs, concatenated in index order. */
  function DirCalls(images: seq<string>, records: seq<Metadata>, imageUris: seq<string>, k: nat): (cs: seq<Call>)
    requires k <= |images| && k <= |records| && k <= |imageUris|
    ensures |cs| == 3 * k
    decreases k
  {
    if k == 0 then []
    else DirCalls(images, records, imageUris, k - 1) + PairCalls(images[k - 1], records[k - 1], imageUris[k - 1])
  }

  /** One more pair after a successful prefix. */
  lemma RunPairsNext(s: Services, images: seq<string>, records: seq<Metadata>, isMainnet: bool, k: nat)
    requires 0 < k <= |images| && k <= |records|
    requires RunPairs(s, images, records, isMainnet, k - 1).uris.Ok?
    ensures var prev := RunPairs(s, images, records, isMainnet, k - 1);
      var reply := PairStep(prev.state, images[k - 1], records[k - 1], isMainnet);
      RunPairs(s, images, records, isMainnet, k)
        == if reply.uri.Err? then Progress(Err(reply.uri.error), reply.state)
           else Progress(Ok(prev.uris.value + [reply.uri.value]), reply.state)
  {
  }

  /**
   * When the first `k` queued image and metadata ids all succeed, the first
   * `k` pairs return the metadata URIs in order, consume exactly `k` ids from
   * each queue, and make each pair's three calls in index order.
   */
  lemma {:induction false} RunPairsAllOk(s: Services, images: seq<string>, records: seq<Metadata>, isMainnet: bool,
                                          imageIds: seq<string>, metadataIds: seq<string>, k: nat)
    requires k <= |images| && k <= |records| && k <= |imageIds| && k <= |metadataIds|
    requires IdsQueued(s.imageTxns, imageIds) && IdsQueued(s.metadataTxns, metadataIds)
    ensures RunPairs(s, images, records, isMainnet, k) == Progress(
      Ok(Uris(metadataIds[..k], isMainnet)),
      Services(s.imageTxns[k..], s.metadataTxns[k..],
               s.calls + DirCalls(images, records, Uris(imageIds, isMainnet), k)))
    decreases k
  {
    if k > 0 {
      var imageUris := Uris(imageIds, isMainnet);
      RunPairsAllOk(s, images, records, isMainnet, imageIds, metadataIds, k - 1);
      var st := Services(s.imageTxns[k - 1..], s.metadataTxns[k - 1..],
                         s.calls + DirCalls(images, records, imageUris, k - 1));
      assert st.imageTxns[0] == Ok(imageIds[k - 1]);
      assert st.metadataTxns[0] == Ok(metadataIds[k - 1]);
      PairStepOk(st, images[k - 1], records[k - 1], isMainnet, imageIds[k - 1], metadataIds[k - 1]);
      RunPairsNext(s, images, records, isMainnet, k);
      AllOkBookkeeping(s, images, records, isMainnet, imageIds, metadataIds, k);
    }
  }

  /** The sequence facts that close one step of `RunPairsAllOk`. */
  lemma AllOkBookkeeping(s: Services, images: seq<string>, records: seq<Metadata>, isMainnet: bool,
                         imageIds: seq<string>, metadataIds: seq<string>, k: nat)
    requires 0 < k <= |images| && k <= |records| && k <= |imageIds| && k <= |metadataIds|
    requires k <= |s.imageTxns| && k <= |s.metadataTxns|
    ensures s.imageTxns[k - 1..][1..] == s.imageTxns[k..]
    ensures s.metadataTxns[k - 1..][1..] == s.metadataTxns[k..]
    ensures var imageUris := Uris(imageIds, isMainnet);
      s.calls + DirCalls(images, records, imageUris, k - 1) + PairCalls(images[k - 1], records[k - 1], TxnUri(imageIds[k - 1], isMainnet))
        == s.calls + DirCalls(images, records, imageUris, k)
    ensures Uris(metadataIds[..k - 1], isMainnet) + [TxnUri(metadataIds[k - 1], isMainnet)]
         == Uris(metadataIds[..k], isMainnet)
  {
    var imageUris := Uris(imageIds, isMainnet);
    var pair := PairCalls(images[k - 1], records[k - 1], imageUris[k - 1]);
    assert DirCalls(images, records, imageUris, k) == DirCalls(images, records, imageUris, k - 1) + pair;
    UrisSnoc(metadataIds, isMainnet, k);
  }

  lemma UrisSnoc(ids: seq<string>, isMainnet: bool, k: nat)
    requires 0 < k <= |ids|
    ensures Uris(ids[..k - 1], isMainnet) + [TxnUri(ids[k - 1], isMainnet)] == Uris(ids[..k], isMainnet)
  {
    var a := Uris(ids[..k - 1], isMainnet) + [TxnUri(ids[k - 1], isMainnet)];
    var b := Uris(ids[..k], isMainnet);
    assert |a| == |b|;
    forall i | 0 <= i < |a| ensures a[i] == b[i] {
      if i < k - 1 {
        assert a[i] == TxnUri(ids[..k - 1][i], isMainnet);
      }
    }
  }

  /** The rewrite calls among `calls`, in the order they were made. */
  function Rewrites(calls: seq<Call>): (rs: seq<Call>)
    ensures forall i :: 0 <= i < |rs| ==> rs[i].Rewrite?
    ensures forall c :: c in rs ==> c in calls
    ensures |rs| <= |calls|
  {
    if calls == [] then []
    else (if calls[0].Rewrite? then [calls[0]] else []) + Rewrites(calls[1..])
  }

  lemma {:induction false} RewritesAppend(a: seq<Call>, b: seq<Call>)
    ensures Rewrites(a + b) == Rewrites(a) + Rewrites(b)
    decreases |a|
  {
    if a == [] {
      assert a + b == b;
    } else {
      assert (a + b)[0] == a[0];
      assert (a + b)[1..] == a[1..] + b;
      RewritesAppend(a[1..], b);
    }
  }

  /** A successful pair makes exactly one rewrite: of its record, with its image's URI. */
  lemma RewritesOfPair(imagePath: string, record: Metadata, imageUri: string)
    ensures Rewrites(PairCalls(imagePath, record, imageUri)) == [Rewrite(record, imageUri)]
  {
    var pair := PairCalls(imagePath, record, imageUri);
    assert pair[1..][1..][1..] == [];
    assert Rewrites(pair[1..][1..]) == [];
    assert Rewrites(pair[1..]) == [Rewrite(record, imageUri)];
  }

  /** The rewrites of the first `k` successful pairs: the `i`-th rewrites record `i` with image URI `i`. */
  lemma {:induction false} RewritesOfDirCalls(images: seq<string>, records: seq<Metadata>, imageUris: seq<string>, k: nat)
    requires k <= |images| && k <= |records| && k <= |imageUris|
    ensures |Rewrites(DirCalls(images, records, imageUris, k))| == k
    ensures forall i :: 0 <= i < k ==> Rewrites(DirCalls(images, records, imageUris, k))[i] == Rewrite(records[i], imageUris[i])
    decreases k
  {
    if k > 0 {
      RewritesOfDirCalls(images, records, imageUris, k - 1);
      RewritesAppend(DirCalls(images, records, imageUris, k - 1), PairCalls(images[k - 1], records[k - 1], imageUris[k - 1]));
      RewritesOfPair(images[k - 1], records[k - 1], imageUris[k - 1]);
    }
  }

  /**
   * A directory upload of `n` matched pairs with `n` ids queued for each kind
   * of upload returns one metadata URI per pair, in input order, and consumes
   * exactly `n` ids from each queue.
   */
  lemma DirectoryUploadReturnsUrisInOrder(s: Services, images: seq<string>, records: seq<Metadata>, isMainnet: bool,
                                          imageIds: seq<string>, metadataIds: seq<string>)
    requires |images| == |records| == |imageIds| == |metadataIds|
    requires IdsQueued(s.imageTxns, imageIds) && IdsQueued(s.metadataTxns, metadataIds)
    ensures UploadDir(s, images, records, isMainnet).uris == Ok(Uris(metadataIds, isMainnet))
    ensures UploadDir(s, images, records, isMainnet).state.imageTxns == s.imageTxns[|images|..]
    ensures UploadDir(s, images, records, isMainnet).state.metadataTxns == s.metadataTxns[|images|..]
  {
    RunPairsAllOk(s, images, records, isMainnet, imageIds, metadataIds, |images|);
    assert metadataIds[..|images|] == metadataIds;
  }

  /**
   * In the same run, the `i`-th rewrite the directory upload makes receives
   * record `i` and the URI of the `i`-th image.
   */
  lemma DirectoryUploadNthRewrite(s: Services, images: seq<string>, records: seq<Metadata>, isMainnet: bool,
                                  imageIds: seq<string>, metadataIds: seq<string>)
    requires |images| == |records| == |imageIds| == |metadataIds|
    requires IdsQueued(s.imageTxns, imageIds) && IdsQueued(s.metadataTxns, metadataIds)
    ensures |Rewrites(UploadDir(s, images, records, isMainnet).state.calls)| == |Rewrites(s.calls)| + |images|
    ensures forall i :: 0 <= i < |images| ==>
      Rewrites(UploadDir(s, images, records, isMainnet).state.calls)[|Rewrites(s.calls)| + i]
        == Rewrite(records[i], TxnUri(imageIds[i], isMainnet))
  {
    DirectoryUploadCalls(s, images, records, isMainnet, imageIds, metadataIds);
    RewritesAfter(s.calls, images, records, Uris(imageIds, isMainnet), |images|);
  }

  /** The rewrites after `prefix` of `k` successful pairs: the `i`-th of them rewrites record `i` with image URI `i`. */
  lemma RewritesAfter(prefix: seq<Call>, images: seq<string>, records: seq<Metadata>, imageUris: seq<string>, k: nat)
    requires k <= |images| && k <= |records| && k <= |imageUris|
    ensures |Rewrites(prefix + DirCalls(images, records, imageUris, k))| == |Rewrites(prefix)| + k
    ensures forall i :: 0 <= i < k ==>
      Rewrites(prefix + DirCalls(images, records, imageUris, k))[|Rewrites(prefix)| + i] == Rewrite(records[i], imageUris[i])
  {
    var dir := DirCalls(images, records, imageUris, k);
    RewritesAppend(prefix, dir);
    RewritesOfDirCalls(images, records, imageUris, k);
  }

  /** The calls of an all-successful directory upload: each pair's three calls, in index order. */
  lemma DirectoryUploadCalls(s: Services, images: seq<string>, records: seq<Metadata>, isMainnet: bool,
                             imageIds: seq<string>, metadataIds: seq<string>)
    requires |images| == |records| == |imageIds| == |metadataIds|
    requires IdsQueued(s.imageTxns, imageIds) && IdsQueued(s.metadataTxns, metadataIds)
    ensures UploadDir(s, images, records, isMainnet).state.calls
         == s.calls + DirCalls(images, records, Uris(imageIds, isMainnet), |images|)
  {
    RunPairsAllOk(s, images, records, isMainnet, imageIds, metadataIds, |images|);
  }

  // ---------------------------------------------------------------------------
  // The orchestrator object
  // ---------------------------------------------------------------------------

  class ArweaveNftUploader {
    const arweaveInstance: Client
    const key: Key
    const isMainnet: bool

    constructor (arweave: Client, key: Key, isMainnet: bool)
      ensures arweaveInstance == arweave && this.key == key && this.isMainnet == isMainnet
    {
      arweaveInstance := arweave;
      this.key := key;
      this.isMainnet := isMainnet;
    }

    /** Uploads the image, then its rewritten metadata; returns the metadata's URI. */
    method UploadSingleImagePathAndMetadataObject(services: Collaborators, imagePath: string, metadata: Metadata)
      returns (uri: Result<string>)
      modifies services
      ensures Reply(uri, services.State()) == PairStep(old(services.State()), imagePath, metadata, isMainnet)
    {
      var imageTxn := services.UploadImageFromPath(imagePath);
      if imageTxn.Err? {
        return Err(imageTxn.error);
      }
      var imageUri := TxnUri(imageTxn.value, isMainnet);
      var updated := services.UpdateMetadataWithImageURI(metadata, imageUri);
      var metadataTxn := services.UploadSingleMetadata(updated);
      if metadataTxn.Err? {
        return Err(metadataTxn.error);
      }
      uri := Ok(TxnUri(metadataTxn.value, isMainnet));
    }

    /**
     * Reads the record at `metadataPath` (`files` holds the metadata files that
     * parse) and delegates to the object variant with the same image path.
     */
    method UploadSingleImagePathAndMetadataPath(services: Collaborators, imagePath: string, metadataPath: string,
                                                files: map<string, Metadata>)
      returns (uri: Result<string>)
      modifies services
      ensures metadataPath !in files ==> uri == Err(ParseError(metadataPath)) && services.State() == old(services.State())
      ensures metadataPath in files ==>
        Reply(uri, services.State()) == PairStep(old(services.State()), imagePath, files[metadataPath], isMainnet)
    {
      if metadataPath !in files {
        return Err(ParseError(metadataPath));
      }
      uri := UploadSingleImagePathAndMetadataObject(services, imagePath, files[metadataPath]);
    }

    /**
     * Uploads each listed image with the metadata record at the same index,
     * strictly in index order, and returns the metadata URIs in that order.
     */
    method UploadImageDirAndFullMetadataFile(services: Collaborators, images: seq<string>, records: seq<Metadata>)
      returns (txnList: Result<seq<string>>)
      modifies services
      ensures Progress(txnList, services.State()) == UploadDir(old(services.State()), images, records, isMainnet)
    {
      if |images| != |records| {
        return Err(CardinalityError(CountMismatch));
      }
      ghost var s0 := services.State();
      var uris: seq<string> := [];
      var i := 0;
      while i < |images|
        invariant 0 <= i <= |images|
        invariant RunPairs(s0, images, records, isMainnet, i) == Progress(Ok(uris), services.State())
      {
        ghost var before := services.State();
        var uri := UploadSingleImagePathAndMetadataObject(services, images[i], records[i]);
        ghost var reply := PairStep(before, images[i], records[i], isMainnet);
        assert reply == Reply(uri, services.State());
        RunPairsNext(s0, images, records, isMainnet, i + 1);
        if uri.Err? {
          assert RunPairs(s0, images, records, isMainnet, i + 1) == Progress(Err(uri.error), services.State());
          RunPairsFailureSticks(s0, images, records, isMainnet, i + 1, |images|);
          return Err(uri.error);
        }
        uris := uris + [uri.value];
        i := i + 1;
      }
      assert UploadDir(s0, images, records, isMainnet) == RunPairs(s0, images, records, isMainnet, |images|);
      txnList := Ok(uris);
    }
  }
}
