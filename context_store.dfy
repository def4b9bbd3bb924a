/**
 * The context store itself (`OpenAIContextStore`): it resolves which vector
 * store a call works on, creating one by name when none matches, uploads
 * documents with their merged attributes, and searches a store and turns
 * the surviving matches into chunks.
 */
module ContextStore {

  import opened Values
  import opened Remote
  import opened Requests

  // ---------------------------------------------------------------- resolution, as data

  /** What a store reference leads to, once the precedence has been applied. */
  datatype Reference = ById(id: string) | ByName(name: string) | Unconfigured

  /**
   * The precedence of `ensure_vector_store`: an explicit id, then the caller's
   * name, then the configured default id, then the configured default name.
   */
  function StoreReference(settings: Settings, storeId: Option<string>, storeName: Option<string>): Reference {
    if Truthy(storeId) then ById(storeId.value)
    else if Truthy(storeName) then ByName(storeName.value)
    else if Truthy(settings.defaultStoreId) then ById(settings.defaultStoreId.value)
    else if Truthy(settings.defaultStoreName) then ByName(settings.defaultStoreName.value)
    else Unconfigured
  }

  /** The first store in list order whose name is `name`. */
  function FirstNamed(stores: seq<VectorStore>, name: string): Option<VectorStore> {
    if stores == [] then None
    else if stores[0].name == Some(name) then Some(stores[0])
    else FirstNamed(stores[1..], name)
  }

  /** What `_find_vector_store_by_name` answers: nothing when the list call fails. */
  function Lookup(stores: seq<VectorStore>, listFails: bool, name: string): Option<VectorStore> {
    if listFails then None else FirstNamed(stores, name)
  }

  /** Index `k` holds the first store named `name`. */
  predicate FirstNamedAt(stores: seq<VectorStore>, name: string, k: int) {
    && 0 <= k < |stores|
    && stores[k].name == Some(name)
    && forall j :: 0 <= j < k ==> stores[j].name != Some(name)
  }

  /** The store `ensure_vector_store` returns, given the service's state before the call. */
  function Resolution(settings: Settings, stores: seq<VectorStore>, listFails: bool, createCount: nat,
                      storeId: Option<string>, storeName: Option<string>): Result<VectorStore>
  {
    match StoreReference(settings, storeId, storeName)
    case ById(id) => StoreById(stores, id)
    case ByName(name) =>
      (match Lookup(stores, listFails, name)
       case Some(store) => Ok(store)
       case None => Ok(VectorStore(CreatedStoreId(createCount), Some(name))))
    case Unconfigured => Err(NoStoreConfigured)
  }

  /** The name `ensure_vector_store` creates a store with, if it creates one. */
  function CreatedName(settings: Settings, stores: seq<VectorStore>, listFails: bool,
                       storeId: Option<string>, storeName: Option<string>): Option<string>
  {
    match StoreReference(settings, storeId, storeName)
    case ByName(name) => if Lookup(stores, listFails, name).None? then Some(name) else None
    case _ => None
  }

  /** `metadata = {}` when the ingest request names a store, else `None`. */
  function IngestMetadata(req: IngestRequest): Option<Attributes> {
    if Truthy(req.storeName) then Some(map[]) else None
  }

  // ---------------------------------------------------------------- resolution, its properties

  /** The name lookup finds nothing exactly when no store has the name, else the first that has it. */
  lemma {:induction false} FirstNamedSpec(stores: seq<VectorStore>, name: string)
    ensures FirstNamed(stores, name).None? <==> forall k :: 0 <= k < |stores| ==> stores[k].name != Some(name)
    ensures FirstNamed(stores, name).Some? ==>
      exists k :: FirstNamedAt(stores, name, k) && stores[k] == FirstNamed(stores, name).value
  {
    if stores != [] && stores[0].name != Some(name) {
      var rest := stores[1..];
      FirstNamedSpec(rest, name);
      if FirstNamed(rest, name).Some? {
        var k :| FirstNamedAt(rest, name, k) && rest[k] == FirstNamed(rest, name).value;
        assert FirstNamedAt(stores, name, k + 1);
      }
      assert forall k :: 1 <= k < |stores| ==> stores[k] == rest[k - 1];
    } else if stores != [] {
      assert FirstNamedAt(stores, name, 0);
    }
  }

  /** An explicit id is fetched from the service as given, and nothing is created. */
  lemma ExplicitIdWins(settings: Settings, stores: seq<VectorStore>, listFails: bool, createCount: nat,
                       storeId: Option<string>, storeName: Option<string>)
    requires Truthy(storeId)
    ensures Resolution(settings, stores, listFails, createCount, storeId, storeName) == StoreById(stores, storeId.value)
    ensures CreatedName(settings, stores, listFails, storeId, storeName) == None
  {
  }

  /**
   * On either name path a store is created (with that name) exactly when the
   * list call fails or no listed store has the name; on every other path none is.
   */
  lemma CreatesIffNoMatch(settings: Settings, stores: seq<VectorStore>, listFails: bool,
                          storeId: Option<string>, storeName: Option<string>)
    ensures match StoreReference(settings, storeId, storeName)
      case ByName(name) =>
        CreatedName(settings, stores, listFails, storeId, storeName) == (
          if listFails || forall k :: 0 <= k < |stores| ==> stores[k].name != Some(name) then Some(name) else None)
      case _ => CreatedName(settings, stores, listFails, storeId, storeName) == None
  {
    match StoreReference(settings, storeId, storeName)
    case ByName(name) => FirstNamedSpec(stores, name);
    case _ =>
  }

  /** When a listed store has the name, the first such store in list order is reused. */
  lemma ReusesFirstMatch(settings: Settings, stores: seq<VectorStore>, listFails: bool, createCount: nat,
                         storeId: Option<string>, storeName: Option<string>, k: int)
    requires StoreReference(settings, storeId, storeName).ByName? && !listFails
    requires FirstNamedAt(stores, StoreReference(settings, storeId, storeName).name, k)
    ensures Resolution(settings, stores, listFails, createCount, storeId, storeName) == Ok(stores[k])
  {
    var name := StoreReference(settings, storeId, storeName).name;
    FirstNamedSpec(stores, name);
    var k' :| FirstNamedAt(stores, name, k') && stores[k'] == FirstNamed(stores, name).value;
    assert k' == k;
  }

  /** Without a caller name (retrieve, store info) only the configured default name can be created. */
  lemma NoCreateFromCallerName(settings: Settings, stores: seq<VectorStore>, listFails: bool, storeId: Option<string>)
    ensures var created := CreatedName(settings, stores, listFails, storeId, None);
      created.Some? ==> !Truthy(storeId) && !Truthy(settings.defaultStoreId) && created == settings.defaultStoreName
  {
  }

  /** Without any id, name or default, resolution fails and creates nothing. */
  lemma UnconfiguredFails(settings: Settings, stores: seq<VectorStore>, listFails: bool, createCount: nat,
                          storeId: Option<string>, storeName: Option<string>)
    requires !Truthy(storeId) && !Truthy(storeName)
    requires !Truthy(settings.defaultStoreId) && !Truthy(settings.defaultStoreName)
    ensures Resolution(settings, stores, listFails, createCount, storeId, storeName) == Err(NoStoreConfigured)
    ensures CreatedName(settings, stores, listFails, storeId, storeName) == None
  {
  }

  // ---------------------------------------------------------------- the store

  class ContextStore {
    const settings: Settings
    const remote: RemoteService

    constructor (settings: Settings, remote: RemoteService)
      requires Truthy(settings.apiKey)
      ensures this.settings == settings && this.remote == remote
    {
      this.settings := settings;
      this.remote := remote;
    }

    /** Building the store fails without an API key. */
    static method Connect(settings: Settings, remote: RemoteService) returns (r: Result<ContextStore>)
      ensures r.Ok? <==> Truthy(settings.apiKey)
      ensures r.Err? ==> r.error == MissingApiKey
      ensures r.Ok? ==> fresh(r.value) && r.value.settings == settings && r.value.remote == remote
    {
      if !Truthy(settings.apiKey) {
        return Err(MissingApiKey);
      }
      var store := new ContextStore(settings, remote);
      return Ok(store);
    }

    /** The store a resolution returns, judged from the service's state before the call. */
    twostate function Resolved(storeId: Option<string>, storeName: Option<string>): Result<VectorStore>
      reads this, remote
    {
      Resolution(settings, old(remote.stores), old(remote.listFails), |old(remote.creates)|, storeId, storeName)
    }

    /** What a resolution does to the service: at most one create, listed first. */
    twostate predicate ResolutionEffect(storeId: Option<string>, storeName: Option<string>,
                                        metadata: Option<Attributes>)
      reads this, remote
    {
      match CreatedName(settings, old(remote.stores), old(remote.listFails), storeId, storeName)
      case None => remote.stores == old(remote.stores) && remote.creates == old(remote.creates)
      case Some(name) =>
        && remote.stores == [VectorStore(CreatedStoreId(|old(remote.creates)|), Some(name))] + old(remote.stores)
        && remote.creates == old(remote.creates) + [CreateCall(name, metadata)]
    }

    /** `_find_vector_store_by_name`: the first listed store with that name. */
    method FindVectorStoreByName(name: string) returns (found: Option<VectorStore>)
      ensures found == Lookup(remote.stores, remote.listFails, name)
    {
      var pages := remote.ListStores();
      if pages.None? {
        return None;
      }
      var stores := pages.value;
      var i := 0;
      while i < |stores|
        invariant 0 <= i <= |stores|
        invariant FirstNamed(stores, name) == FirstNamed(stores[i..], name)
      {
        if stores[i].name == Some(name) {
          return Some(stores[i]);
        }
        assert stores[i..][1..] == stores[i + 1..];
        i := i + 1;
      }
      return None;
    }

    /** `ensure_vector_store`: resolve, or lazily create, the store a call works on. */
    method EnsureVectorStore(storeId: Option<string>, storeName: Option<string>, metadata: Option<Attributes>)
      returns (r: Result<VectorStore>)
      modifies remote`stores, remote`creates
      ensures r == Resolved(storeId, storeName)
      ensures ResolutionEffect(storeId, storeName, metadata)
    {
      if Truthy(storeId) {
        r := remote.RetrieveStore(storeId.value);
        return;
      }
      var name: string;
      if !Truthy(storeName) {
        if Truthy(settings.defaultStoreId) {
          r := remote.RetrieveStore(settings.defaultStoreId.value);
          return;
        }
        if !Truthy(settings.defaultStoreName) {
          return Err(NoStoreConfigured);
        }
        name := settings.defaultStoreName.value;
      } else {
        name := storeName.value;
      }
      var existing := FindVectorStoreByName(name);
      if existing.Some? {
        return Ok(existing.value);
      }
      var created := remote.CreateStore(name, metadata);
      return Ok(created);
    }

    /**
     * `ingest`: resolve the store (a caller name comes with empty metadata),
     * choose the filename, merge the attributes and upload. Whatever status
     * the upload ends in is reported, not raised.
     */
    method Ingest(req: IngestRequest, stampSeconds: int, ingestedAt: string) returns (r: Result<IngestResponse>)
      modifies remote`stores, remote`creates, remote`uploads
      ensures ResolutionEffect(req.storeId, req.storeName, IngestMetadata(req))
      ensures Resolved(req.storeId, req.storeName).Err? ==>
        r == Err(Resolved(req.storeId, req.storeName).error) && remote.uploads == old(remote.uploads)
      ensures Resolved(req.storeId, req.storeName).Ok? ==>
        var store := Resolved(req.storeId, req.storeName).value;
        && r.Ok?
        && r.value.storeId == store.id
        && r.value.storeName == store.name
        && r.value.fileId == UploadedFileId(|old(remote.uploads)|)
        && r.value.filename == UploadFilename(req, stampSeconds)
        && r.value.status == remote.uploadStatus
        && r.value.attributes.Some?
        && IsMergedAttributes(req.attributes, req.documentId, req.summary, ingestedAt, r.value.attributes.value)
        && remote.uploads == old(remote.uploads) + [UploadCall(store.id,
             UploadFile(r.value.filename, req.content, req.mimeType), r.value.attributes, req.chunkingStrategy)]
    {
      var metadata: Option<Attributes> := None;
      if Truthy(req.storeName) {
        metadata := Some(map[]);
      }
      var resolved := EnsureVectorStore(req.storeId, req.storeName, metadata);
      if resolved.Err? {
        return Err(resolved.error);
      }
      var store := resolved.value;
      var filename := UploadFilename(req, stampSeconds);
      var attributes := MergeAttributes(req.attributes, req.documentId, req.summary, ingestedAt);
      var upload := UploadFile(filename, req.content, req.mimeType);
      var uploadAttributes := if |attributes| == 0 then None else Some(attributes);
      var stored := remote.UploadAndPoll(store.id, upload, uploadAttributes, req.chunkingStrategy);
      r := Ok(IngestResponse(store.id, store.name, stored.id, filename, stored.status, stored.attributes));
    }

    /**
     * `retrieve`: resolve the store without a caller name, search it, and keep
     * the matches that reach the threshold, in ranked order, as chunks.
     */
    method Retrieve(req: RetrieveRequest) returns (r: Result<RetrieveResponse>)
      modifies remote`stores, remote`creates, remote`searches
      ensures ResolutionEffect(req.storeId, None, None)
      ensures Resolved(req.storeId, None).Err? ==>
        r == Err(Resolved(req.storeId, None).error) && remote.searches == old(remote.searches)
      ensures Resolved(req.storeId, None).Ok? ==>
        var kept := Kept(remote.searchReply, req.scoreThreshold);
        && r.Ok?
        && r.value.storeId == Resolved(req.storeId, None).value.id
        && r.value.query == req.query
        && |remote.searches| == |old(remote.searches)| + 1
        && remote.searches[..|old(remote.searches)|] == old(remote.searches)
        && remote.searches[|old(remote.searches)|].storeId == r.value.storeId
        && IsSearchArgsFor(req, settings.defaultMaxResults, remote.searches[|old(remote.searches)|].args)
        && |r.value.results| == |kept|
        && forall j :: 0 <= j < |kept| ==> r.value.results[j] == ToChunk(kept[j])
    {
      var resolved := EnsureVectorStore(req.storeId, None, None);
      if resolved.Err? {
        return Err(resolved.error);
      }
      var store := resolved.value;
      var args := BuildSearchArgs(req, settings.defaultMaxResults);
      var results := remote.Search(store.id, args);
      var collected := CollectChunks(results, req.scoreThreshold);
      r := Ok(RetrieveResponse(store.id, req.query, collected));
    }

    /** `get_vector_store_info`: the id and name of the store resolved without a caller name. */
    method GetVectorStoreInfo(storeId: Option<string>) returns (r: Result<StoreInfo>)
      modifies remote`stores, remote`creates
      ensures ResolutionEffect(storeId, None, None)
      ensures Resolved(storeId, None).Err? ==> r == Err(Resolved(storeId, None).error)
      ensures Resolved(storeId, None).Ok? ==>
        r == Ok(StoreInfo(Resolved(storeId, None).value.id, Resolved(storeId, None).value.name))
    {
      var resolved := EnsureVectorStore(storeId, None, None);
      if resolved.Err? {
        return Err(resolved.error);
      }
      r := Ok(StoreInfo(resolved.value.id, resolved.value.name));
    }
  }
}
