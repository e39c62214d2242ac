/**
 * The Pinecone vector index (lib/pinecone.ts): the connection cached at
 * module level, the upload of embedded emails in slices of 100, deletion,
 * clearing, and the defaults of the index statistics. The Pinecone service
 * is outside the model: whether each request succeeds is an argument, and
 * the remote index is a map from record id to record that the methods
 * reassign (an upsert overwrites a record with the same id).
 */
module VectorIndex {
  import opened Base
  import opened Batching
  import opened Embeddings

  const INDEX_NAME := "gmail-emails"
  /** The dimension of `text-embedding-3-small` vectors, used to create the index and as the stats default. */
  const DIMENSION: nat := 1536
  /** Records per `upsert` request. */
  const UPSERT_BATCH: nat := 100
  /** The pause after creating the index, in milliseconds. */
  const INDEX_READY_MS: nat := 10000

  const MISSING_API_KEY := "Missing PINECONE_API_KEY environment variable"
  const INIT_FAILED := "Failed to initialize Pinecone"
  const UPLOAD_FAILED := "Failed to upload emails to Pinecone"
  const STATS_FAILED := "Failed to get index statistics"
  const DELETE_FAILED := "Failed to delete emails from index"
  const CLEAR_FAILED := "Failed to clear index"

  type Records = map<string, EmbeddedEmail>

  // ---------------------------------------------------------------------------
  // What an upsert does to the index
  // ---------------------------------------------------------------------------

  /** The index after upserting `batch`, record by record in order. */
  function Upsert(records: Records, batch: seq<EmbeddedEmail>): Records
  {
    if batch == [] then records
    else
      var last := batch[|batch| - 1];
      Upsert(records, batch[..|batch| - 1])[last.id := last]
  }

  /** The index after upserting the batches one after the other. */
  function UpsertBatches(records: Records, batches: seq<seq<EmbeddedEmail>>): Records
  {
    if batches == [] then records
    else Upsert(UpsertBatches(records, batches[..|batches| - 1]), batches[|batches| - 1])
  }

  /** Upserting a concatenation is upserting its parts in turn. */
  lemma {:induction false} UpsertAppend(records: Records, a: seq<EmbeddedEmail>, b: seq<EmbeddedEmail>)
    ensures Upsert(records, a + b) == Upsert(Upsert(records, a), b)
    decreases |b|
  {
    if b == [] {
      assert a + b == a;
    } else {
      var b' := b[..|b| - 1];
      assert (a + b)[..|a + b| - 1] == a + b';
      assert (a + b)[|a + b| - 1] == b[|b| - 1];
      UpsertAppend(records, a, b');
    }
  }

  /** Upserting batch by batch leaves the index as upserting their concatenation at once. */
  lemma {:induction false} UpsertBatchesFlatten(records: Records, batches: seq<seq<EmbeddedEmail>>)
    ensures UpsertBatches(records, batches) == Upsert(records, Flatten(batches))
    decreases |batches|
  {
    if batches != [] {
      var init := batches[..|batches| - 1];
      var last := batches[|batches| - 1];
      assert batches == init + [last];
      FlattenAppend(init, [last]);
      assert Flatten([last]) == last + Flatten([last][1..]);
      assert [last][1..] == [];
      assert Flatten([last]) == last;
      UpsertBatchesFlatten(records, init);
      UpsertAppend(records, Flatten(init), last);
    }
  }

  /** Slicing the upload into batches of 100 changes nothing about the index it leaves. */
  lemma UpsertInChunks(records: Records, emails: seq<EmbeddedEmail>)
    ensures UpsertBatches(records, Chunks(emails, UPSERT_BATCH)) == Upsert(records, emails)
  {
    ChunksCover(emails, UPSERT_BATCH);
    UpsertBatchesFlatten(records, Chunks(emails, UPSERT_BATCH));
  }

  /** The ids of the uploaded records. */
  function Ids(batch: seq<EmbeddedEmail>): set<string>
  {
    set i | 0 <= i < |batch| :: batch[i].id
  }

  lemma IdsOfInit(batch: seq<EmbeddedEmail>)
    requires batch != []
    ensures Ids(batch) == Ids(batch[..|batch| - 1]) + {batch[|batch| - 1].id}
  {
    var init := batch[..|batch| - 1];
    forall id | id in Ids(batch)
      ensures id in Ids(init) + {batch[|batch| - 1].id}
    {
      var i :| 0 <= i < |batch| && batch[i].id == id;
      if i < |init| {
        assert init[i] == batch[i];
      }
    }
    forall id | id in Ids(init)
      ensures id in Ids(batch)
    {
      var i :| 0 <= i < |init| && init[i].id == id;
      assert batch[i] == init[i];
    }
  }

  /** After an upsert the index holds the old ids and the uploaded ones, and nothing else. */
  lemma {:induction false} UpsertKeys(records: Records, batch: seq<EmbeddedEmail>)
    ensures Upsert(records, batch).Keys == records.Keys + Ids(batch)
    decreases |batch|
  {
    if batch != [] {
      UpsertKeys(records, batch[..|batch| - 1]);
      IdsOfInit(batch);
    }
  }

  /** A record whose id was not uploaded is left as it was. */
  lemma {:induction false} UpsertKeepsOthers(records: Records, batch: seq<EmbeddedEmail>, id: string)
    requires id in records && id !in Ids(batch)
    ensures id in Upsert(records, batch) && Upsert(records, batch)[id] == records[id]
    decreases |batch|
  {
    if batch != [] {
      IdsOfInit(batch);
      UpsertKeepsOthers(records, batch[..|batch| - 1], id);
    }
  }

  /** An uploaded id holds the last record uploaded with it. */
  lemma {:induction false} UpsertLastWins(records: Records, batch: seq<EmbeddedEmail>, i: nat)
    requires i < |batch|
    requires forall j :: i < j < |batch| ==> batch[j].id != batch[i].id
    ensures batch[i].id in Upsert(records, batch) && Upsert(records, batch)[batch[i].id] == batch[i]
    decreases |batch|
  {
    var init := batch[..|batch| - 1];
    if i < |init| {
      assert init[i] == batch[i];
      forall j | i < j < |init|
        ensures init[j].id != init[i].id
      {
        assert init[j] == batch[j];
      }
      UpsertLastWins(records, init, i);
    }
  }

  // ---------------------------------------------------------------------------
  // Index statistics
  // ---------------------------------------------------------------------------

  /** `describeIndexStats()` as Pinecone answers it; each number may be missing. */
  datatype RawStats = RawStats(totalRecordCount: Option<int>, dimension: Option<int>, namespaces: Option<map<string, nat>>)

  datatype IndexStats = IndexStats(totalRecordCount: int, dimension: int, namespaces: Option<map<string, nat>>)

  /**
   * The `|| 0` and `|| 1536` defaults of `getIndexStats`. A missing count and
   * a count of 0 both read as 0, so the count is simply the answer's or 0;
   * the dimension is never 0.
   */
  function StatsOf(raw: RawStats): (s: IndexStats)
    ensures s.totalRecordCount == (if raw.totalRecordCount.Some? then raw.totalRecordCount.value else 0)
    ensures s.dimension != 0
    ensures raw.dimension.Some? && raw.dimension.value != 0 ==> s.dimension == raw.dimension.value
    ensures (raw.dimension.None? || raw.dimension.value == 0) ==> s.dimension == DIMENSION
    ensures s.namespaces == raw.namespaces
  {
    IndexStats(if raw.totalRecordCount.Some? && raw.totalRecordCount.value != 0 then raw.totalRecordCount.value else 0,
               if raw.dimension.Some? && raw.dimension.value != 0 then raw.dimension.value else DIMENSION,
               raw.namespaces)
  }

  // ---------------------------------------------------------------------------
  // The connection and the operations on the index
  // ---------------------------------------------------------------------------

  /** What the Pinecone service answers during `initializePinecone`: the list request, and the create request if one is made. */
  datatype Service = Service(listOk: bool, createOk: bool)

  /** One more batch upserted after the others. */
  lemma UpsertBatchesStep(records: Records, batches: seq<seq<EmbeddedEmail>>, batch: seq<EmbeddedEmail>)
    ensures UpsertBatches(records, batches + [batch]) == Upsert(UpsertBatches(records, batches), batch)
  {
    assert (batches + [batch])[..|batches|] == batches;
  }

  /** The part done so far is the prefix of the whole of its own length. */
  lemma PrefixOf<T>(done: seq<T>, rest: seq<T>, whole: seq<T>)
    requires done + rest == whole
    ensures whole[..|done|] == done && (rest == [] ==> whole[..|whole|] == done)
  {
    assert whole[..|done|] == (done + rest)[..|done|];
  }

  /** Whether `initializePinecone` succeeds: a cached connection, or a key and a service that lists (and creates) the index. */
  predicate WillConnect(connected: bool, indexes: set<string>, apiKey: Option<string>, svc: Service)
  {
    connected || (Truthy(apiKey) && svc.listOk && (INDEX_NAME in indexes || svc.createOk))
  }

  /** The number of slices upserted when slice `failAt` throws, out of `n`. */
  function Completed(n: nat, failAt: Option<nat>): (k: nat)
    ensures k <= n
    ensures k == n <==> failAt.None? || failAt.value >= n
  {
    if failAt.Some? && failAt.value < n then failAt.value else n
  }

  /**
   * The module-level `pineconeClient` and `index`, and the Pinecone project
   * they talk to: the names of its indexes and the records of "gmail-emails".
   * A client is identified by the number of clients created so far
   * (`connections`); `waits` records the pauses made.
   */
  class Pinecone {
    var client: Option<nat>
    var index: Option<string>
    var indexes: set<string>
    var records: Records
    var connections: nat
    ghost var waits: seq<nat>

    constructor (indexes: set<string>, records: Records)
      ensures client.None? && index.None? && this.indexes == indexes && this.records == records
      ensures connections == 0 && waits == []
    {
      client, index := None, None;
      this.indexes, this.records := indexes, records;
      connections, waits := 0, [];
    }

    /** Both module-level handles are set. */
    predicate Connected()
      reads this
    {
      client.Some? && index.Some?
    }

    /**
     * What `initializePinecone` leaves in the handles, the project's indexes
     * and the pauses: a cached connection or a missing key changes nothing;
     * otherwise a new client is kept whatever follows, and on success the
     * handle is "gmail-emails", created and waited for 10 s if it was absent.
     */
    twostate predicate Initialized(apiKey: Option<string>, svc: Service)
      reads this
    {
      && (old(Connected()) || !Truthy(apiKey) ==>
            client == old(client) && index == old(index) && connections == old(connections)
            && indexes == old(indexes) && waits == old(waits))
      && (!old(Connected()) && Truthy(apiKey) ==>
            && client == Some(old(connections) + 1) && connections == old(connections) + 1
            && (WillConnect(false, old(indexes), apiKey, svc) ==>
                  index == Some(INDEX_NAME) && indexes == old(indexes) + {INDEX_NAME}
                  && waits == old(waits) + (if INDEX_NAME in old(indexes) then [] else [INDEX_READY_MS]))
            && (!WillConnect(false, old(indexes), apiKey, svc) ==>
                  index == old(index) && indexes == old(indexes) && waits == old(waits)))
    }

    /**
     * `initializePinecone`: a cached connection is returned as it is; without
     * an API key it throws before connecting; otherwise a new client is made
     * (and kept even if a later step throws), the index is created and waited
     * for when it does not exist, and the handle to "gmail-emails" is kept.
     */
    method InitializePinecone(apiKey: Option<string>, svc: Service) returns (r: Result<()>)
      modifies this
      ensures Initialized(apiKey, svc)
      ensures r.Ok? <==> WillConnect(old(Connected()), old(indexes), apiKey, svc)
      ensures old(Connected()) ==> r == Ok(())
      ensures !old(Connected()) && !Truthy(apiKey) ==> r == Err(MISSING_API_KEY)
      ensures !old(Connected()) && Truthy(apiKey) && r.Err? ==> r.msg == INIT_FAILED
      ensures records == old(records)
      ensures r.Ok? ==> Connected()
    {
      if client.Some? && index.Some? {
        return Ok(());
      }
      if !Truthy(apiKey) {
        return Err(MISSING_API_KEY);
      }
      connections := connections + 1;
      client := Some(connections);
      if !svc.listOk {
        return Err(INIT_FAILED);
      }
      var indexExists := INDEX_NAME in indexes;
      if !indexExists {
        if !svc.createOk {
          return Err(INIT_FAILED);
        }
        indexes := indexes + {INDEX_NAME};
        waits := waits + [INDEX_READY_MS];
      }
      index := Some(INDEX_NAME);
      r := Ok(());
    }

    /** The upload has done the slices `done` and reported `progress`, and goes on at index `i`. */
    ghost predicate UploadedUpTo(emails: seq<EmbeddedEmail>, i: nat, records0: Records,
                                 done: seq<seq<EmbeddedEmail>>, progress: seq<nat>)
      reads this
    {
      && i == |done| * UPSERT_BATCH && |progress| == |done|
      && done + ChunksFrom(emails, UPSERT_BATCH, i) == Chunks(emails, UPSERT_BATCH)
      && progress + ProgressFrom(|emails|, UPSERT_BATCH, i) == Progress(|emails|, UPSERT_BATCH)
      && records == UpsertBatches(records0, done)
    }

    /** One pass of the upload loop: `upsert(slice(i, i + 100))`, then `min(i + 100, n)` reported. */
    method UploadPass(emails: seq<EmbeddedEmail>, i: nat, ghost records0: Records,
                      ghost done: seq<seq<EmbeddedEmail>>, ghost progress: seq<nat>)
      returns (ghost done': seq<seq<EmbeddedEmail>>, ghost progress': seq<nat>)
      requires i < |emails| && UploadedUpTo(emails, i, records0, done, progress)
      modifies this`records
      ensures UploadedUpTo(emails, i + UPSERT_BATCH, records0, done', progress')
      ensures |done'| == |done| + 1
    {
      var end := Min(i + UPSERT_BATCH, |emails|);
      var batch := emails[i..end];
      BatchingStep(emails, UPSERT_BATCH, i, done, progress);
      UpsertBatchesStep(records0, done, batch);
      records := Upsert(records, batch);
      done' := done + [batch];
      progress' := progress + [end];
    }

    /**
     * The loop of `upsertEmails`: the emails are upserted in consecutive
     * slices of 100, `min(i + 100, n)` being reported after each. `failAt` is
     * the number of the slice whose upsert throws, if any; the slices upserted
     * before it stay in the index.
     */
    method UploadInBatches(embeddedEmails: seq<EmbeddedEmail>, failAt: Option<nat>) returns (ok: bool, ghost progress: seq<nat>)
      modifies this`records
      ensures var k := Completed(|Chunks(embeddedEmails, UPSERT_BATCH)|, failAt);
              && (ok <==> k == |Chunks(embeddedEmails, UPSERT_BATCH)|)
              && records == UpsertBatches(old(records), Chunks(embeddedEmails, UPSERT_BATCH)[..k])
              && progress == Progress(|embeddedEmails|, UPSERT_BATCH)[..k]
    {
      progress := [];
      ghost var records0 := records;
      ghost var done: seq<seq<EmbeddedEmail>> := [];
      var i, j := 0, 0;
      while i < |embeddedEmails|
        invariant j == |done| && UploadedUpTo(embeddedEmails, i, records0, done, progress)
        invariant failAt.Some? ==> failAt.value >= j
        decreases |embeddedEmails| - i
      {
        if failAt == Some(j) {
          PrefixOf(done, ChunksFrom(embeddedEmails, UPSERT_BATCH, i), Chunks(embeddedEmails, UPSERT_BATCH));
          PrefixOf(progress, ProgressFrom(|embeddedEmails|, UPSERT_BATCH, i), Progress(|embeddedEmails|, UPSERT_BATCH));
          return false, progress;
        }
        done, progress := UploadPass(embeddedEmails, i, records0, done, progress);
        i, j := i + UPSERT_BATCH, j + 1;
      }
      PrefixOf(done, [], Chunks(embeddedEmails, UPSERT_BATCH));
      PrefixOf(progress, [], Progress(|embeddedEmails|, UPSERT_BATCH));
      ok := true;
    }

    /**
     * `upsertEmails`: connect, then `UploadInBatches`; every error, from the
     * connection or from a slice, surfaces as the one upload error.
     */
    method UpsertEmails(embeddedEmails: seq<EmbeddedEmail>, apiKey: Option<string>, svc: Service, failAt: Option<nat>)
      returns (r: Result<()>, ghost progress: seq<nat>)
      modifies this
      ensures Initialized(apiKey, svc)
      ensures r.Ok? ==> Connected()
      ensures r.Err? ==> r.msg == UPLOAD_FAILED
      ensures !WillConnect(old(Connected()), old(indexes), apiKey, svc) ==> r.Err? && records == old(records) && progress == []
      ensures WillConnect(old(Connected()), old(indexes), apiKey, svc) ==>
                var k := Completed(|Chunks(embeddedEmails, UPSERT_BATCH)|, failAt);
                && (r.Ok? <==> k == |Chunks(embeddedEmails, UPSERT_BATCH)|)
                && records == UpsertBatches(old(records), Chunks(embeddedEmails, UPSERT_BATCH)[..k])
                && progress == Progress(|embeddedEmails|, UPSERT_BATCH)[..k]
    {
      progress := [];
      var init := InitializePinecone(apiKey, svc);
      if init.Err? {
        return Err(UPLOAD_FAILED), progress;
      }
      var ok;
      ok, progress := UploadInBatches(embeddedEmails, failAt);
      r := if ok then Ok(()) else Err(UPLOAD_FAILED);
    }

    /** `deleteEmails`: after connecting, the records with the given ids are removed, or the request throws. */
    method DeleteEmails(emailIds: seq<string>, apiKey: Option<string>, svc: Service, deleteOk: bool) returns (r: Result<()>)
      modifies this
      ensures Initialized(apiKey, svc)
      ensures r.Ok? ==> Connected()
      ensures r.Err? ==> r.msg == DELETE_FAILED && records == old(records)
      ensures r.Ok? <==> WillConnect(old(Connected()), old(indexes), apiKey, svc) && deleteOk
      ensures r.Ok? ==> records == old(records) - (set k | 0 <= k < |emailIds| :: emailIds[k])
    {
      var init := InitializePinecone(apiKey, svc);
      if init.Err? || !deleteOk {
        return Err(DELETE_FAILED);
      }
      records := records - (set k | 0 <= k < |emailIds| :: emailIds[k]);
      r := Ok(());
    }

    /** `clearIndex`: after connecting, every record is removed, or the request throws. */
    method ClearIndex(apiKey: Option<string>, svc: Service, clearOk: bool) returns (r: Result<()>)
      modifies this
      ensures Initialized(apiKey, svc)
      ensures r.Ok? ==> Connected()
      ensures r.Err? ==> r.msg == CLEAR_FAILED && records == old(records)
      ensures r.Ok? <==> WillConnect(old(Connected()), old(indexes), apiKey, svc) && clearOk
      ensures r.Ok? ==> records == map[]
    {
      var init := InitializePinecone(apiKey, svc);
      if init.Err? || !clearOk {
        return Err(CLEAR_FAILED);
      }
      records := map[];
      r := Ok(());
    }

    /** `getIndexStats`: after connecting, the answer of `describeIndexStats` with its defaults, or the stats error. */
    method GetIndexStats(apiKey: Option<string>, svc: Service, answer: Option<RawStats>) returns (r: Result<IndexStats>)
      modifies this
      ensures Initialized(apiKey, svc)
      ensures r.Ok? ==> Connected()
      ensures records == old(records)
      ensures r.Err? ==> r.msg == STATS_FAILED
      ensures r.Ok? <==> WillConnect(old(Connected()), old(indexes), apiKey, svc) && answer.Some?
      ensures r.Ok? ==> r.value == StatsOf(answer.value)
    {
      var init := InitializePinecone(apiKey, svc);
      if init.Err? || answer.None? {
        return Err(STATS_FAILED);
      }
      r := Ok(StatsOf(answer.value));
    }
  }
}
