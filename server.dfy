/**
 * The request handlers and the WebSocket client set of backend/server.js.
 *
 * Each handler loads the document, changes it in memory, writes it back and
 * broadcasts it; the data file is the field `doc`, the readyState of every
 * socket at broadcast time is the parameter `open`, and a generated id
 * (`Date.now().toString()`) is the parameter `newId`.
 */
module Server {
  import opened Wrappers
  import opened Seqs
  import opened Documents
  import opened Notifier

  /** The JSON values that appear in response bodies. */
  datatype Json = Str(s: string) | Flag(b: bool) | Item(record: Record) | Items(records: seq<Record>)

  /** A response body: a JSON object's top-level fields. */
  type Body = map<string, Json>

  /** An HTTP response: status code and body. */
  datatype Response = Response(status: nat, body: Body)

  /** What Express hands POST /api/data as `req.body`. */
  datatype DataBody = Missing | NotObject | Object(doc: Document)

  const InvalidData := "\U{65E0}\U{6548}\U{7684}\U{6570}\U{636E}\U{683C}\U{5F0F}"
  const DataSaved := "\U{6570}\U{636E}\U{4FDD}\U{5B58}\U{6210}\U{529F}"
  const NoSuchCategory := "\U{5206}\U{7C7B}\U{4E0D}\U{5B58}\U{5728}"
  const NoSuchWebsite := "\U{7F51}\U{7AD9}\U{4E0D}\U{5B58}\U{5728}"

  function DocumentBody(d: Document): Body {
    map["categories" := Items(d.categories), "websites" := Items(d.websites)]
  }

  /** `res.json(record)`: the record itself is the body. */
  function RecordBody(r: Record): Body {
    map f | f in r :: Str(r[f])
  }

  function ListBody(field: string, rs: seq<Record>): Body {
    map[field := Items(rs)]
  }

  function SuccessBody(field: string, r: Record): Body {
    map["success" := Flag(true), field := Item(r)]
  }

  function DeletedBody(): Body {
    map["success" := Flag(true)]
  }

  function SavedBody(): Body {
    map["success" := Flag(true), "message" := Str(DataSaved)]
  }

  function ErrorBody(message: string): Body {
    map["error" := Str(message)]
  }

  /** What a handle has been sent so far; nothing for a handle never seen. */
  function SentTo(sent: Outbox, h: Handle): seq<Message> {
    if h in sent then sent[h] else []
  }

  class Server {
    /** The contents of the data file. */
    var doc: Document
    /** `clients`: the sockets currently connected. */
    var clients: set<Handle>
    /** Every frame `ws.send` has delivered, per socket. */
    var sent: Outbox

    ghost predicate Valid()
      reads this
    {
      clients <= sent.Keys
    }

    /** Start-up: `ensureDataFileExists` writes the seed when there is no data file. */
    constructor (stored: Option<Document>)
      ensures Valid()
      ensures doc == (if stored.None? then Seed() else stored.value)
      ensures clients == {} && sent == map[]
    {
      doc := if stored.None? then Seed() else stored.value;
      clients := {};
      sent := map[];
    }

    /** A socket connects to /ws: it joins the client set and is sent the current document. */
    method Connect(h: Handle)
      requires Valid()
      modifies this
      ensures Valid()
      ensures clients == old(clients) + {h}
      ensures sent == old(sent)[h := SentTo(old(sent), h) + [InitialData(doc)]]
      ensures doc == old(doc)
    {
      clients := clients + {h};
      sent := sent[h := SentTo(sent, h) + [InitialData(doc)]];
    }

    /** A socket's 'close' event: it leaves the client set; closing twice is harmless. */
    method Close(h: Handle)
      requires Valid()
      modifies this
      ensures Valid()
      ensures clients == old(clients) - {h}
      ensures sent == old(sent) && doc == old(doc)
    {
      clients := clients - {h};
    }

    /** `broadcastUpdate(data)`: one DATA_UPDATE frame to each client whose readyState is OPEN. */
    method BroadcastUpdate(data: Document, open: set<Handle>)
      requires Valid()
      modifies this
      ensures Valid()
      ensures clients == old(clients) && doc == old(doc)
      ensures sent == Deliver(old(sent), clients, open, DataUpdate(data))
    {
      var m := DataUpdate(data);
      var pending := clients;
      while pending != {}
        invariant pending <= clients
        invariant clients == old(clients) && doc == old(doc)
        invariant sent == Deliver(old(sent), clients - pending, open, m)
        decreases pending
      {
        var c :| c in pending;
        if c in open {
          sent := sent[c := sent[c] + [m]];
        }
        pending := pending - {c};
      }
    }

    /** GET /api/data. */
    method GetData() returns (r: Response)
      ensures r == Response(200, DocumentBody(doc))
    {
      r := Response(200, DocumentBody(doc));
    }

    /** POST /api/data: a missing or non-object body is refused; otherwise it becomes the document. */
    method SaveData(body: DataBody, open: set<Handle>) returns (r: Response)
      requires Valid()
      modifies this
      ensures Valid() && clients == old(clients)
      ensures !body.Object? ==> r == Response(400, ErrorBody(InvalidData)) && doc == old(doc) && sent == old(sent)
      ensures body.Object? ==> r == Response(200, SavedBody()) && doc == body.doc
      ensures body.Object? ==> sent == Deliver(old(sent), clients, open, DataUpdate(body.doc))
    {
      if !body.Object? {
        return Response(400, ErrorBody(InvalidData));
      }
      doc := body.doc;
      BroadcastUpdate(doc, open);
      r := Response(200, SavedBody());
    }

    /** GET /api/categories. */
    method ListCategories() returns (r: Response)
      ensures r == Response(200, ListBody("categories", doc.categories))
    {
      r := Response(200, ListBody("categories", doc.categories));
    }

    /** GET /api/categories/:id: the first category with that id, or 404. */
    method GetCategory(id: string) returns (r: Response)
      ensures Find(doc.categories, id).None? ==> r == Response(404, ErrorBody(NoSuchCategory))
      ensures Find(doc.categories, id).Some? ==> r == Response(200, RecordBody(Find(doc.categories, id).value))
    {
      var category := Find(doc.categories, id);
      if category.None? {
        return Response(404, ErrorBody(NoSuchCategory));
      }
      r := Response(200, RecordBody(category.value));
    }

    /** POST /api/categories: appends `{id: newId, ...body}` and broadcasts. */
    method AddCategory(newId: string, body: Record, open: set<Handle>) returns (r: Response)
      requires Valid()
      modifies this
      ensures Valid() && clients == old(clients)
      ensures doc == Added(old(doc), Categories, newId, body)
      ensures r == Response(201, SuccessBody("category", NewRecord(newId, body)))
      ensures sent == Deliver(old(sent), clients, open, DataUpdate(doc))
    {
      var category := NewRecord(newId, body);
      doc := doc.(categories := doc.categories + [category]);
      BroadcastUpdate(doc, open);
      r := Response(201, SuccessBody("category", category));
    }

    /** PUT /api/categories/:id: 404 and no write when the id is unknown; otherwise a shallow merge. */
    method UpdateCategory(id: string, body: Record, open: set<Handle>) returns (r: Response)
      requires Valid()
      modifies this
      ensures Valid() && clients == old(clients)
      ensures Updated(old(doc), Categories, id, body).None? ==>
        r == Response(404, ErrorBody(NoSuchCategory)) && doc == old(doc) && sent == old(sent)
      ensures Updated(old(doc), Categories, id, body).Some? ==>
        && doc == Updated(old(doc), Categories, id, body).value
        && r == Response(200, SuccessBody("category", Merge(Find(old(doc).categories, id).value, body)))
        && sent == Deliver(old(sent), clients, open, DataUpdate(doc))
    {
      var index := FindIndex(doc.categories, id);
      if index.None? {
        return Response(404, ErrorBody(NoSuchCategory));
      }
      var i := index.value;
      doc := doc.(categories := doc.categories[i := Merge(doc.categories[i], body)]);
      BroadcastUpdate(doc, open);
      r := Response(200, SuccessBody("category", doc.categories[i]));
    }

    /** DELETE /api/categories/:id: drops the category's websites, then the category, and broadcasts. */
    method DeleteCategory(id: string, open: set<Handle>) returns (r: Response)
      requires Valid()
      modifies this
      ensures Valid() && clients == old(clients)
      ensures doc == CategoryDeleted(old(doc), id)
      ensures r == Response(200, DeletedBody())
      ensures sent == Deliver(old(sent), clients, open, DataUpdate(doc))
    {
      doc := doc.(websites := Filter(doc.websites, CategoryIsNot(id)));
      doc := doc.(categories := Filter(doc.categories, IdIsNot(id)));
      BroadcastUpdate(doc, open);
      r := Response(200, DeletedBody());
    }

    /** GET /api/websites. */
    method ListWebsites() returns (r: Response)
      ensures r == Response(200, ListBody("websites", doc.websites))
    {
      r := Response(200, ListBody("websites", doc.websites));
    }

    /** GET /api/categories/:id/websites: never 404, even for a category that does not exist. */
    method WebsitesOfCategory(id: string) returns (r: Response)
      ensures r == Response(200, ListBody("websites", WebsitesIn(doc, id)))
    {
      r := Response(200, ListBody("websites", Filter(doc.websites, CategoryIs(id))));
    }

    /** GET /api/websites/:id: the first website with that id, or 404. */
    method GetWebsite(id: string) returns (r: Response)
      ensures Find(doc.websites, id).None? ==> r == Response(404, ErrorBody(NoSuchWebsite))
      ensures Find(doc.websites, id).Some? ==> r == Response(200, RecordBody(Find(doc.websites, id).value))
    {
      var website := Find(doc.websites, id);
      if website.None? {
        return Response(404, ErrorBody(NoSuchWebsite));
      }
      r := Response(200, RecordBody(website.value));
    }

    /** POST /api/websites: appends `{id: newId, ...body}` and broadcasts. */
    method AddWebsite(newId: string, body: Record, open: set<Handle>) returns (r: Response)
      requires Valid()
      modifies this
      ensures Valid() && clients == old(clients)
      ensures doc == Added(old(doc), Websites, newId, body)
      ensures r == Response(201, SuccessBody("website", NewRecord(newId, body)))
      ensures sent == Deliver(old(sent), clients, open, DataUpdate(doc))
    {
      var website := NewRecord(newId, body);
      doc := doc.(websites := doc.websites + [website]);
      BroadcastUpdate(doc, open);
      r := Response(201, SuccessBody("website", website));
    }

    /** PUT /api/websites/:id: 404 and no write when the id is unknown; otherwise a shallow merge. */
    method UpdateWebsite(id: string, body: Record, open: set<Handle>) returns (r: Response)
      requires Valid()
      modifies this
      ensures Valid() && clients == old(clients)
      ensures Updated(old(doc), Websites, id, body).None? ==>
        r == Response(404, ErrorBody(NoSuchWebsite)) && doc == old(doc) && sent == old(sent)
      ensures Updated(old(doc), Websites, id, body).Some? ==>
        && doc == Updated(old(doc), Websites, id, body).value
        && r == Response(200, SuccessBody("website", Merge(Find(old(doc).websites, id).value, body)))
        && sent == Deliver(old(sent), clients, open, DataUpdate(doc))
    {
      var index := FindIndex(doc.websites, id);
      if index.None? {
        return Response(404, ErrorBody(NoSuchWebsite));
      }
      var i := index.value;
      doc := doc.(websites := doc.websites[i := Merge(doc.websites[i], body)]);
      BroadcastUpdate(doc, open);
      r := Response(200, SuccessBody("website", doc.websites[i]));
    }

    /** DELETE /api/websites/:id: succeeds whether or not the id exists. */
    method DeleteWebsite(id: string, open: set<Handle>) returns (r: Response)
      requires Valid()
      modifies this
      ensures Valid() && clients == old(clients)
      ensures doc == WebsiteDeleted(old(doc), id)
      ensures r == Response(200, DeletedBody())
      ensures sent == Deliver(old(sent), clients, open, DataUpdate(doc))
    {
      doc := doc.(websites := Filter(doc.websites, IdIsNot(id)));
      BroadcastUpdate(doc, open);
      r := Response(200, DeletedBody());
    }
  }
}

/**
 * Starting from the seed document, with one subscriber connected
 * and open, creating the category "News" answers 201 with the new record,
 * leaves four categories and sends the subscriber one DATA_UPDATE after its
 * INITIAL_DATA; deleting category "1" then leaves two categories and one website.
 */
module Scenarios {
  import opened Wrappers
  import opened Documents
  import opened Notifier
  import opened Server

  method SeedScenario(newId: string, h: Handle)
  {
    var server := new Server(None);
    server.Connect(h);
    var body := map["name" := "News", "icon" := "\U{1F4F0}"];
    var r := server.AddCategory(newId, body, {h});
    assert r.status == 201 && r.body["category"] == Item(NewRecord(newId, body));
    assert |server.doc.categories| == 4;
    var afterAdd := server.doc;
    assert server.sent[h] == [InitialData(Seed()), DataUpdate(afterAdd)];

    var seeded := new Server(None);
    var deleted := seeded.DeleteCategory("1", {});
    SeedCascade();
    assert |seeded.doc.categories| == 2 && |seeded.doc.websites| == 1;
  }
}
