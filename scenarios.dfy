/**
 * Two client runs that mirror the mock-based unit tests: the service holds
 * one store named "test-store", which the settings name as the default.
 * They show what a caller can conclude from the contracts alone.
 */
module Scenarios {

  import opened Values
  import opened Remote
  import opened Requests
  import opened ContextStore

  method RetrieveThroughDefaultName() {
    var store := VectorStore("vs_test123", Some("test-store"));
    var part := ContentPart("text", "This is test content");
    var hit := SearchResult("file_test123", "test-document.txt", 0.95, [part], Some(map["summary" := Str("Test")]));
    var remote := new RemoteService([store], false, [hit], "completed");
    var settings := Settings(Some("sk-test-key"), None, Some("test-store"), 5);
    var connected := ContextStore.Connect(settings, remote);
    var cs := connected.value;
    var req := RetrieveRequest("Find authentication info", None, Some(5), None, None, None);
    var r := cs.Retrieve(req);
    KeptWithoutThreshold([hit]);
    assert r.Ok?;
    assert r.value.storeId == "vs_test123";
    assert r.value.query == "Find authentication info";
    assert |r.value.results| == 1;
    assert r.value.results[0].score == 0.95;
    assert TextParts([part]) == ["This is test content"] by {
      assert [part][..0] == [];
    }
    assert r.value.results[0].text == "This is test content";
    assert remote.creates == [];
  }

  method IngestThroughDefaultName() {
    var store := VectorStore("vs_test123", Some("test-store"));
    var remote := new RemoteService([store], false, [], "completed");
    var settings := Settings(Some("sk-test-key"), None, Some("test-store"), 5);
    var connected := ContextStore.Connect(settings, remote);
    var cs := connected.value;
    var req := IngestRequest("Test document content", None, None, Some("doc1"), Some("test.txt"),
                             Some("Test Summary"), None, None, DefaultMimeType);
    var r := cs.Ingest(req, 1700000000, "2023-11-14T22:13:20+00:00");
    assert r.Ok?;
    assert r.value.storeId == "vs_test123";
    assert r.value.filename == "test.txt";
    assert r.value.status == "completed";
    assert |remote.uploads| == 1 && remote.creates == [];
    assert r.value.attributes.value["document_id"] == Str("doc1");
  }
}
