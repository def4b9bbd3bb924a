/**
 * The hosted vector-store service, seen only through the calls the context
 * store makes on it. The service is a small object: the stores its list call
 * yields (newest first), whether that list call fails, logs of the create,
 * search and upload calls it received, the ranked matches every search
 * answers with, and the terminal status every upload ends in.
 */
module Remote {

  import opened Values
  import Strings

  /** A vector store as the service describes it: an id and an optional name. */
  datatype VectorStore = VectorStore(id: string, name: Option<string>)

  /** One part of a search match; only parts of type "text" carry snippet text. */
  datatype ContentPart = ContentPart(kind: string, text: string)

  /** One ranked match of a similarity search. */
  datatype SearchResult = SearchResult(
    fileId: string,
    filename: string,
    score: real,
    content: seq<ContentPart>,
    attributes: Option<Attributes>)

  /**
   * The keyword arguments of a search call. An optional field that is `None`
   * stands for a keyword that was not passed at all. `filters` holds the map
   * passed as the `"attributes"` entry of the `filters` keyword.
   */
  datatype SearchArgs = SearchArgs(
    query: string,
    maxNumResults: int,
    filters: Option<Attributes>,
    rewriteQuery: Option<bool>)

  /** The file tuple handed to the upload call: name, content and MIME type. */
  datatype UploadFile = UploadFile(filename: string, content: string, mimeType: string)

  /** A file as the service reports it once the upload's polling has ended. */
  datatype StoredFile = StoredFile(id: string, status: string, attributes: Option<Attributes>)

  datatype CreateCall = CreateCall(name: string, metadata: Option<Attributes>)
  datatype SearchCall = SearchCall(storeId: string, args: SearchArgs)
  datatype UploadCall = UploadCall(
    storeId: string,
    file: UploadFile,
    attributes: Option<Attributes>,
    chunkingStrategy: Option<string>)

  /** The store with identifier `id` (the first listed one), or a not-found error. */
  function StoreById(stores: seq<VectorStore>, id: string): (r: Result<VectorStore>)
    ensures r.Ok? ==> r.value in stores && r.value.id == id
    ensures r.Err? ==> r.error == StoreNotFound(id) && forall s :: s in stores ==> s.id != id
  {
    if stores == [] then Err(StoreNotFound(id))
    else if stores[0].id == id then Ok(stores[0])
    else StoreById(stores[1..], id)
  }

  /** The identifier the service gives to the `n`-th store created through it. */
  function CreatedStoreId(n: nat): string {
    "vs_" + Strings.NatDecimal(n)
  }

  /** The identifier the service gives to the `n`-th file uploaded through it. */
  function UploadedFileId(n: nat): string {
    "file_" + Strings.NatDecimal(n)
  }

  class RemoteService {
    var stores: seq<VectorStore>
    var listFails: bool
    var creates: seq<CreateCall>
    var searchReply: seq<SearchResult>
    var searches: seq<SearchCall>
    var uploadStatus: string
    var uploads: seq<UploadCall>

    constructor (stores: seq<VectorStore>, listFails: bool, searchReply: seq<SearchResult>, uploadStatus: string)
      ensures this.stores == stores && this.listFails == listFails
      ensures this.searchReply == searchReply && this.uploadStatus == uploadStatus
      ensures creates == [] && searches == [] && uploads == []
    {
      this.stores := stores;
      this.listFails := listFails;
      this.searchReply := searchReply;
      this.uploadStatus := uploadStatus;
      creates, searches, uploads := [], [], [];
    }

    /** `vector_stores.retrieve(id)`. */
    method RetrieveStore(id: string) returns (r: Result<VectorStore>)
      ensures r == StoreById(stores, id)
    {
      r := StoreById(stores, id);
    }

    /** `vector_stores.list(...)`, iterated over every page; `None` when the call raises. */
    method ListStores() returns (pages: Option<seq<VectorStore>>)
      ensures pages == if listFails then None else Some(stores)
    {
      pages := if listFails then None else Some(stores);
    }

    /** `vector_stores.create(name=..., metadata=...)`: the new store is listed first. */
    method CreateStore(name: string, metadata: Option<Attributes>) returns (store: VectorStore)
      modifies this`stores, this`creates
      ensures store == VectorStore(CreatedStoreId(|old(creates)|), Some(name))
      ensures stores == [store] + old(stores)
      ensures creates == old(creates) + [CreateCall(name, metadata)]
    {
      store := VectorStore(CreatedStoreId(|creates|), Some(name));
      stores := [store] + stores;
      creates := creates + [CreateCall(name, metadata)];
    }

    /** `vector_stores.search(store_id, **args)`: answers with the fixed ranked matches. */
    method Search(storeId: string, args: SearchArgs) returns (results: seq<SearchResult>)
      modifies this`searches
      ensures results == searchReply
      ensures searches == old(searches) + [SearchCall(storeId, args)]
    {
      results := searchReply;
      searches := searches + [SearchCall(storeId, args)];
    }

    /**
     * `vector_stores.files.upload_and_poll(...)`: the file keeps the attributes
     * it was given and ends in the service's terminal status.
     */
    method UploadAndPoll(storeId: string, file: UploadFile, attributes: Option<Attributes>,
                         chunkingStrategy: Option<string>)
      returns (stored: StoredFile)
      modifies this`uploads
      ensures stored == StoredFile(UploadedFileId(|old(uploads)|), uploadStatus, attributes)
      ensures uploads == old(uploads) + [UploadCall(storeId, file, attributes, chunkingStrategy)]
    {
      stored := StoredFile(UploadedFileId(|uploads|), uploadStatus, attributes);
      uploads := uploads + [UploadCall(storeId, file, attributes, chunkingStrategy)];
    }
  }
}
