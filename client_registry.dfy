/**
 * The Google Reviews client registry: a module-level table from client id
 * to configuration, kept by two managers. One loads and saves the whole
 * table as a JSON file; the other rebuilds it from a document collection and
 * upserts one document per change.
 */
module ClientRegistry {
  import opened JsText

  /** The stored configuration of one client; any field may be absent or null in what was loaded. */
  datatype ClientData = ClientData(placeId: JsValue, placeName: JsValue, themeColor: JsValue, widgetSize: JsValue)

  /** The `CLIENTS` object. Handlers that call `getClients()` hold this very object. */
  class ClientTable {
    var entries: map<string, ClientData>

    constructor (entries: map<string, ClientData>)
      ensures this.entries == entries
    {
      this.entries := entries;
    }

    /** `CLIENTS[clientId] = clientData`. */
    method Set(clientId: string, data: ClientData)
      modifies this
      ensures entries == old(entries)[clientId := data]
    {
      entries := entries[clientId := data];
    }
  }

  /** The manager that keeps the table in a JSON file. */
  class FileClientManager {
    var clients: ClientTable
    /** The contents of the configuration file. */
    var file: map<string, ClientData>

    constructor (file: map<string, ClientData>)
      ensures this.file == file && fresh(clients) && clients.entries == map[]
    {
      this.file := file;
      clients := new ClientTable(map[]);
    }

    /**
     * `loadClients`: a new table holding the parsed file, or an empty one when
     * the file cannot be read or parsed (`readOk` false). Tables handed out
     * before keep their old contents.
     */
    method LoadClients(readOk: bool)
      modifies this
      ensures fresh(clients)
      ensures clients.entries == (if readOk then file else map[])
      ensures file == old(file)
    {
      clients := new ClientTable(if readOk then file else map[]);
    }

    /** `saveClients`: the file gets the whole table; a write failure is only logged. */
    method SaveClients(writeOk: bool)
      modifies this
      ensures file == (if writeOk then clients.entries else old(file))
      ensures clients == old(clients)
    {
      if writeOk {
        file := clients.entries;
      }
    }

    /** `getClients`: the live table, not a copy. */
    method GetClients() returns (t: ClientTable)
      ensures t == clients
    {
      t := clients;
    }

    /** `setClient`: one key of the live table is (re)assigned. */
    method SetClient(clientId: string, data: ClientData)
      modifies clients
      ensures clients.entries == old(clients.entries)[clientId := data]
    {
      clients.Set(clientId, data);
    }
  }

  /** One document of the `clients` collection. */
  datatype ClientDoc = ClientDoc(clientId: string, data: ClientData)

  predicate ClientIdsUnique(docs: seq<ClientDoc>) {
    forall i, j :: 0 <= i < j < |docs| ==> docs[i].clientId != docs[j].clientId
  }

  /**
   * `clients.reduce((acc, c) => { acc[c.clientId] = c.data; ... }, {})`:
   * every id present maps to the data of its last document.
   */
  function ReduceDocs(docs: seq<ClientDoc>): map<string, ClientData> {
    if docs == [] then map[]
    else ReduceDocs(docs[..|docs| - 1])[docs[|docs| - 1].clientId := docs[|docs| - 1].data]
  }

  /** The reduced table has exactly the ids present in the documents. */
  lemma {:induction false} ReduceDocsKeys(docs: seq<ClientDoc>)
    ensures forall id :: id in ReduceDocs(docs) <==> exists i :: 0 <= i < |docs| && docs[i].clientId == id
  {
    if docs != [] {
      var front := docs[..|docs| - 1];
      ReduceDocsKeys(front);
      assert ReduceDocs(docs) == ReduceDocs(front)[docs[|docs| - 1].clientId := docs[|docs| - 1].data];
      forall id | id in ReduceDocs(docs) ensures exists i :: 0 <= i < |docs| && docs[i].clientId == id {
        if id != docs[|docs| - 1].clientId {
          var i :| 0 <= i < |front| && front[i].clientId == id;
          assert docs[i] == front[i];
        }
      }
      forall i | 0 <= i < |docs| ensures docs[i].clientId in ReduceDocs(docs) {
        if i < |docs| - 1 { assert docs[i] == front[i]; }
      }
    }
  }

  /** Each id is mapped to the data of its last document. */
  lemma {:induction false} ReduceDocsLastWins(docs: seq<ClientDoc>, i: nat)
    requires i < |docs| && forall j :: i < j < |docs| ==> docs[j].clientId != docs[i].clientId
    ensures docs[i].clientId in ReduceDocs(docs) && ReduceDocs(docs)[docs[i].clientId] == docs[i].data
  {
    if i < |docs| - 1 {
      var front := docs[..|docs| - 1];
      assert front[i] == docs[i];
      ReduceDocsLastWins(front, i);
    }
  }

  /** With duplicate ids, the later document wins. */
  lemma LaterDuplicateWins(docs: seq<ClientDoc>, id: string, a: ClientData, b: ClientData)
    ensures id in ReduceDocs(docs + [ClientDoc(id, a), ClientDoc(id, b)])
    ensures ReduceDocs(docs + [ClientDoc(id, a), ClientDoc(id, b)])[id] == b
  {
    var ds := docs + [ClientDoc(id, a), ClientDoc(id, b)];
    assert ds[..|ds| - 1] == docs + [ClientDoc(id, a)];
  }

  /** The index `updateOne({clientId}, ...)` matches: the first document with that id, or -1. */
  function FirstDoc(docs: seq<ClientDoc>, clientId: string): (r: int)
    ensures -1 <= r < |docs|
    ensures r == -1 <==> forall i :: 0 <= i < |docs| ==> docs[i].clientId != clientId
    ensures r >= 0 ==> docs[r].clientId == clientId && forall j :: 0 <= j < r ==> docs[j].clientId != clientId
  {
    if docs == [] then -1
    else if docs[0].clientId == clientId then 0
    else
      var r := FirstDoc(docs[1..], clientId);
      assert forall i :: 1 <= i < |docs| ==> docs[i] == docs[1..][i - 1];
      if r == -1 then -1 else r + 1
  }

  /**
   * `updateOne({clientId}, {$set: {clientId, data}}, {upsert: true})`: the
   * matching document gets the new data, or a new document is appended.
   */
  function Upsert(docs: seq<ClientDoc>, clientId: string, data: ClientData): (r: seq<ClientDoc>)
    ensures FirstDoc(docs, clientId) >= 0 ==> |r| == |docs| && r == docs[FirstDoc(docs, clientId) := ClientDoc(clientId, data)]
    ensures FirstDoc(docs, clientId) == -1 ==> r == docs + [ClientDoc(clientId, data)]
  {
    var k := FirstDoc(docs, clientId);
    if k == -1 then docs + [ClientDoc(clientId, data)] else docs[k := ClientDoc(clientId, data)]
  }

  /** An upsert never creates a second document for an id. */
  lemma UpsertKeepsIdsUnique(docs: seq<ClientDoc>, clientId: string, data: ClientData)
    requires ClientIdsUnique(docs)
    ensures ClientIdsUnique(Upsert(docs, clientId, data))
  {
    var r := Upsert(docs, clientId, data);
    var k := FirstDoc(docs, clientId);
    if k == -1 {
      forall i, j | 0 <= i < j < |r| ensures r[i].clientId != r[j].clientId {
        if j < |docs| { assert r[i] == docs[i] && r[j] == docs[j]; }
        else { assert r[i] == docs[i]; }
      }
    } else {
      forall i, j | 0 <= i < j < |r| ensures r[i].clientId != r[j].clientId {
        assert r[i].clientId == docs[i].clientId && r[j].clientId == docs[j].clientId;
      }
    }
  }

  /** Replacing the data of the one document with a given id changes that key of the reduced table only. */
  lemma {:induction false} ReduceReplaceUnique(docs: seq<ClientDoc>, k: nat, data: ClientData)
    requires k < |docs| && ClientIdsUnique(docs)
    ensures ReduceDocs(docs[k := ClientDoc(docs[k].clientId, data)]) == ReduceDocs(docs)[docs[k].clientId := data]
  {
    var id := docs[k].clientId;
    var r := docs[k := ClientDoc(id, data)];
    var front := docs[..|docs| - 1];
    var last := docs[|docs| - 1];
    if k == |docs| - 1 {
      assert r[..|r| - 1] == front;
    } else {
      assert r[..|r| - 1] == front[k := ClientDoc(id, data)];
      assert ClientIdsUnique(front);
      ReduceReplaceUnique(front, k, data);
      assert last.clientId != id;
      assert r[|r| - 1] == last;
    }
  }

  /**
   * On a collection with unique ids, reloading after an upsert gives the old
   * table with that one key set: memory and collection stay in step.
   */
  lemma {:induction false} ReloadAfterUpsert(docs: seq<ClientDoc>, clientId: string, data: ClientData)
    requires ClientIdsUnique(docs)
    ensures ReduceDocs(Upsert(docs, clientId, data)) == ReduceDocs(docs)[clientId := data]
  {
    var k := FirstDoc(docs, clientId);
    if k == -1 {
      var r := docs + [ClientDoc(clientId, data)];
      assert r[..|r| - 1] == docs;
    } else {
      ReduceReplaceUnique(docs, k, data);
    }
  }

  /** The manager that keeps the table in a document collection. */
  class MongoClientManager {
    var clients: ClientTable
    /** The documents of the `clients` collection. */
    var collection: seq<ClientDoc>

    constructor (collection: seq<ClientDoc>)
      ensures this.collection == collection && fresh(clients) && clients.entries == map[]
    {
      this.collection := collection;
      clients := new ClientTable(map[]);
    }

    /** `loadClients`: a new table reduced from every document, or an empty one when connecting or reading fails. */
    method LoadClients(connectOk: bool)
      modifies this
      ensures fresh(clients)
      ensures clients.entries == (if connectOk then ReduceDocs(collection) else map[])
      ensures collection == old(collection)
    {
      clients := new ClientTable(if connectOk then ReduceDocs(collection) else map[]);
    }

    /** `saveClient`: upsert one document; `thrown` reports the rethrown failure, which leaves the collection as it was. */
    method SaveClient(clientId: string, data: ClientData, writeOk: bool) returns (thrown: bool)
      modifies this
      ensures thrown == !writeOk
      ensures collection == (if writeOk then Upsert(old(collection), clientId, data) else old(collection))
      ensures clients == old(clients)
    {
      thrown := !writeOk;
      if writeOk {
        collection := Upsert(collection, clientId, data);
      }
    }

    /** `getClients` of the database-backed manager: the same live table as the file-backed one hands out, from a second source file. */
    method GetClients() returns (t: ClientTable)
      ensures t == clients
    {
      t := clients;
    }

    /** `setClient`: memory first, then the save, so memory holds the new data even when the save throws. */
    method SetClient(clientId: string, data: ClientData, writeOk: bool) returns (thrown: bool)
      modifies this, clients
      ensures clients == old(clients)
      ensures clients.entries == old(clients.entries)[clientId := data]
      ensures thrown == !writeOk
      ensures collection == (if writeOk then Upsert(old(collection), clientId, data) else old(collection))
      ensures writeOk && ClientIdsUnique(old(collection)) && old(clients.entries) == ReduceDocs(old(collection))
              ==> clients.entries == ReduceDocs(collection)
    {
      clients.Set(clientId, data);
      if writeOk && ClientIdsUnique(collection) {
        ReloadAfterUpsert(collection, clientId, data);
      }
      thrown := SaveClient(clientId, data, writeOk);
    }
  }
}
