# Navigator: verified model of the bookmark server and its client data service

Navigator is a bookmark manager. An Express server (backend/server.js) keeps a
single JSON document `{categories, websites}` in a data file. It serves
create/read/update/delete endpoints over it and pushes the whole document to
every connected WebSocket client after each change. The browser-side
`ApiDataService` (src/services/apiDataService.js) keeps that WebSocket open,
reconnects with exponential backoff, dispatches pushed frames to registered
listeners and unwraps the REST responses for the UI.

This project models both parts in Dafny and proves properties about them.

- `wrappers.dfy` (`Wrappers`): `Option`, used for `null`, `undefined` and a -1 index.
- `seqs.dfy` (`Seqs`): `findIndex`, `filter` and `indexOf`+`splice` as
  functions over sequences, with lemmas on order, idempotence and partition.
- `documents.dfy` (`Documents`): records as `map<string, string>`, so that the
  object spread `{...a, ...b}` is map union with the right side winning. The
  document, the seed document, and one function per handler giving the document
  after the request from the document before it. Lemmas relate these.
- `notifier.dfy` (`Notifier`): the two frame types, `broadcastUpdate` as
  `Deliver`, and the broadcast-fidelity lemma for a sequence of broadcasts.
- `server.dfy` (`Server`, `Scenarios`): class `Server`. Its fields are the data
  file contents (`doc`), the `clients` set and what each socket has been sent
  (`sent`). Its methods are the WebSocket connect/close handlers,
  `BroadcastUpdate` (a loop over the client set) and one method per REST
  endpoint. Each endpoint method returns its status code and JSON body. Each
  mutating method is proved against the `Documents` function for that request,
  and against `Deliver` for its single broadcast. `Scenarios.SeedScenario`
  starts from the seed document with one subscriber, creates one category and
  cascade-deletes category "1", checked against those contracts.
- `api_data_service.dfy` (`ApiClient`): class `ApiDataService` with the fields
  `ws`, `isConnected`, `listeners` and `reconnectAttempts`, plus a ghost log of
  the retry delays handed to `setTimeout`. It also holds the pure rules: the
  backoff formula, frame-type dispatch, listener registration, and the
  `fetchData` / `?.field || []` / `?.field || null` unwrapping. Lemmas tie these
  rules back to the server's response bodies. `ClientScenarios.DisconnectThenReconnect`
  runs connect, open, disconnect and the close event that follows against the
  method contracts.

Inputs from the environment:
- A generated id (`Date.now().toString()`) is the parameter `newId`.
- The set of sockets whose readyState is OPEN when a broadcast runs is the parameter `open`.
- A new socket object is the parameter `socket`. Whether its construction throws is the parameter `constructionThrows`.
- A parse failure of a frame is `None`.
- A `fetch` outcome is an `Option<Response>`.
- Invoking a listener is recorded as a `Call` value. `notifyListeners` returns the calls it makes, in order.

Behaviour of the code that the model states precisely:
- `GET /api/categories/:id/websites` filters websites by `categoryId` without
  looking at the categories. A website whose category does not exist is still
  listed. The result is empty exactly when no website carries that categoryId
  (`Documents.WebsitesInEmpty`).
- `DELETE /api/categories/:id` for an id no category has still removes every
  website that carries that categoryId. It leaves the document unchanged only
  when no category has the id and no website references it
  (`Documents.CategoryDeletedAbsent`).
- A `DATA_UPDATE` frame whose `data` is null or missing throws at
  `message.data.categories` before any listener runs. The exception is caught in
  `onmessage`, so no listener is notified. An `INITIAL_DATA` frame with no data
  notifies its listeners with `null` or `undefined` (None).
- `disconnect()` does not reset `reconnectAttempts`. It also leaves the socket's
  `onclose` handler installed, so the close event that follows still goes
  through `OnClose` and schedules a retry while the counter is below five; the
  retry's `connect()` then opens a new socket
  (`ClientScenarios.DisconnectThenReconnect`: after connect, open, disconnect
  and close, one retry at 3000 ms is scheduled and the next `Connect` installs
  a new socket).
- `off` after `on` of a new callback leaves the event with an empty list, not
  without an entry (`ApiClient.OnThenOff`).

## Model

| member | source | states |
|---|---|---|
| `Seqs.FirstIndex` | backend/server.js:205-208 | the index is the first whose element satisfies the test; None exactly when no element does |
| `Seqs.Filter` | backend/server.js:227-229 | every kept element satisfies the test and comes from the input; every input element that satisfies it is kept |
| `Seqs.FilterConcat` | backend/server.js:227-229 | filtering distributes over concatenation, so kept elements stay in their relative order |
| `Seqs.FilterKeepsAll` | backend/server.js:320 | a filter that rejects nothing returns its input unchanged |
| `Seqs.FilterKeepsNone` | backend/server.js:254 | a filter that keeps nothing returns the empty sequence |
| `Seqs.FilterIdempotent` | backend/server.js:227-229 | filtering twice by the same test equals filtering once |
| `Seqs.FilterPartition` | backend/server.js:227 | the kept and the dropped elements together number the input's length |
| `Seqs.RemoveFirst` | src/services/apiDataService.js:102-105 | an absent element changes nothing; otherwise the result is one shorter and has exactly one occurrence fewer |
| `Seqs.RemoveFirstSplit` | src/services/apiDataService.js:102-105 | only the first occurrence is removed: `a + [x] + b` with `x` not in `a` becomes `a + b` |
| `Seqs.RemoveFirstAt` | src/services/apiDataService.js:102-105 | cutting out the first index of the element (indexOf then splice) equals RemoveFirst |
| `Documents.NewRecord` | backend/server.js:187-190 | the new record has the body's fields and `id`; body fields win, and `id` is the generated one unless the body supplies one |
| `Documents.Merge` | backend/server.js:209-212 | body fields win; fields the body leaves out keep their old values; no other field appears |
| `Documents.FindIndex` | backend/server.js:205 | the index of the first record whose id equals the argument, or None exactly when none does |
| `Documents.Find` | backend/server.js:172 | the first record with that id, or None exactly when no record has it |
| `Documents.WebsitesIn` | backend/server.js:254 | exactly the websites whose categoryId is the argument, all taken from the document |
| `Documents.Added` | backend/server.js:187-191 | the collection is one longer, earlier records are unchanged, the new record is last, and the other collection is untouched |
| `Documents.Updated` | backend/server.js:204-212 | None exactly when no record has the id; otherwise only the first such record changes, to the merge of it with the body, and the other collection is untouched |
| `Documents.CategoryDeleted` | backend/server.js:225-229 | no category with the id and no website of that category remains; every other record survives; nothing is invented |
| `Documents.WebsiteDeleted` | backend/server.js:319-320 | categories are untouched; no website with the id remains; every other website survives |
| `Documents.CategoryDeletedKeepsOrder` | backend/server.js:227-229 | the cascade delete distributes over any split of either collection, so survivors keep their document order |
| `Documents.CategoryDeletedAbsent` | backend/server.js:223-232 | deleting an id that no category has and no website references leaves the document unchanged |
| `Documents.WebsiteDeletedAbsent` | backend/server.js:317-323 | deleting a website id nobody has leaves the document unchanged |
| `Documents.CategoryDeletedIdempotent` | backend/server.js:223-232 | deleting the same category twice equals deleting it once |
| `Documents.CascadeLeavesNoWebsites` | backend/server.js:226-229 | after the cascade, the deleted category's website list is empty |
| `Documents.WebsitesInEmpty` | backend/server.js:251-255 | the category's website list is empty exactly when no website carries that categoryId |
| `Documents.CascadeRemovesExactlyWebsitesIn` | backend/server.js:227 | the websites removed by the cascade are exactly as many as the category's website list |
| `Documents.AddedThenFound` | backend/server.js:184-194 | with an unused generated id and no id in the body, get-by-id afterwards finds exactly the created record |
| `Documents.UpdatedThenFound` | backend/server.js:202-215 | when the body keeps the id, get-by-id afterwards finds the old record with the body merged in |
| `Documents.SeedCascade` | backend/server.js:27-68 | deleting category "1" from the seed document leaves 2 categories and only the MDN website |
| `Notifier.Deliver` | backend/server.js:110-121 | each client in the set whose state is OPEN gets the frame appended once; every other handle's record is unchanged |
| `Notifier.DeliverAll` | backend/server.js:110-121 | a run of broadcasts keeps the set of known handles |
| `Notifier.BroadcastFidelity` | backend/server.js:110-121 | a client connected and open throughout N broadcasts receives exactly those N frames, in publication order |
| `Notifier.BroadcastSkipsOthers` | backend/server.js:116-120 | a handle outside the client set receives nothing from any broadcast |
| `Server.Server.constructor` | backend/server.js:25-75 | the document is the stored one, or `Documents.Seed` (the three categories and three websites of backend/server.js:27-68) when there is no data file; no clients yet |
| `Server.Server.Connect` | backend/server.js:81-94 | the socket joins the client set and is sent INITIAL_DATA with the current document; the document is unchanged |
| `Server.Server.Close` | backend/server.js:103-106 | the socket leaves the client set; nothing else changes |
| `Server.Server.BroadcastUpdate` | backend/server.js:110-121 | what was sent afterwards is Deliver of one DATA_UPDATE frame to the open clients; document and client set unchanged |
| `Server.Server.GetData` | backend/server.js:124-132 | 200 with the whole document |
| `Server.Server.SaveData` | backend/server.js:135-155 | a missing or non-object body gives 400 with no write and no broadcast; otherwise the body becomes the document, 200, and exactly that body is broadcast |
| `Server.Server.ListCategories` | backend/server.js:158-166 | 200 with `{categories}` holding every category |
| `Server.Server.GetCategory` | backend/server.js:169-181 | 200 with the first category with that id, or 404 when none has it |
| `Server.Server.AddCategory` | backend/server.js:184-199 | the document becomes Added for categories; 201 with the new record; one broadcast of the new document |
| `Server.Server.UpdateCategory` | backend/server.js:202-220 | unknown id: 404 with document and clients' frames unchanged; otherwise the document becomes Updated, 200 with the merged record, one broadcast |
| `Server.Server.DeleteCategory` | backend/server.js:223-237 | the document becomes CategoryDeleted, 200 whether or not the id existed, one broadcast |
| `Server.Server.ListWebsites` | backend/server.js:240-248 | 200 with `{websites}` holding every website |
| `Server.Server.WebsitesOfCategory` | backend/server.js:251-260 | 200 with the category's websites in document order, never 404 |
| `Server.Server.GetWebsite` | backend/server.js:263-275 | 200 with the first website with that id, or 404 when none has it |
| `Server.Server.AddWebsite` | backend/server.js:278-293 | the document becomes Added for websites; 201 with the new record; one broadcast of the new document |
| `Server.Server.UpdateWebsite` | backend/server.js:296-314 | unknown id: 404 with no change and no broadcast; otherwise the document becomes Updated, 200 with the merged record, one broadcast |
| `Server.Server.DeleteWebsite` | backend/server.js:317-328 | the document becomes WebsiteDeleted, categories untouched, 200 even for an absent id, one broadcast |
| `ApiClient.RetryDelay` | src/services/apiDataService.js:66 | the retry delay is never below the 3000 ms base |
| `ApiClient.RetryDelayDoubles` | src/services/apiDataService.js:66 | each retry waits twice as long as the one before |
| `ApiClient.Retries` | src/services/apiDataService.js:62-70 | consecutive reconnect attempts from a counter schedule no more retries than the cap leaves, the i-th with delay `3000 * 2^(attempt-1)` |
| `ApiClient.RetriesFromZero` | src/services/apiDataService.js:9-11 | from a fresh counter, any five or more closes schedule exactly 3000, 6000, 12000, 24000 and 48000 ms |
| `ApiClient.TotalDelayClosedForm` | src/services/apiDataService.js:66 | the timers of the first k retries wait `3000 * (2^k - 1)` ms in total, so at least 93 s pass before the client gives up |
| `ApiClient.EventFor` | src/services/apiDataService.js:75-87 | INITIAL_DATA maps to 'initial-data' and DATA_UPDATE to 'data-update', both ways; every other type maps to nothing |
| `ApiClient.Registered` | src/services/apiDataService.js:91-96 | the callback is appended to the event's list, created if absent; other events' lists are unchanged |
| `ApiClient.Unregistered` | src/services/apiDataService.js:99-107 | an absent event or callback changes nothing; otherwise exactly one occurrence leaves the event's list; other events are unchanged |
| `ApiClient.OnThenOff` | src/services/apiDataService.js:91-107 | removing a newly registered callback restores the event's previous list |
| `ApiClient.Invocations` | src/services/apiDataService.js:113-121 | one call per listener, in registration order, each with the same data |
| `ApiClient.Fetch` | src/services/apiDataService.js:139-150 | a result exists exactly when the request got a 2xx status, and then it is the response body |
| `ApiClient.UnwrapList` | src/services/apiDataService.js:164-167 | no result or no such field gives `[]`; a list field is returned as is |
| `ApiClient.UnwrapRecord` | src/services/apiDataService.js:175-178 | no result or no such field gives null; a record field is returned as is |
| `ApiClient.ListRoundTrip` | src/services/apiDataService.js:192-195 | the list the server sends under a field is exactly what the getter returns |
| `ApiClient.RecordRoundTrip` | src/services/apiDataService.js:209-212 | the record a successful create or update sends is exactly what the client method returns |
| `ApiClient.FailureUnwrapsToNothing` | src/services/apiDataService.js:141-150 | a network failure or non-2xx status reads as `[]` for lists and null for records |
| `ApiClient.ApiDataService.constructor` | src/services/apiDataService.js:3-12 | no socket, not connected, no listeners, counter 0 |
| `ApiClient.ApiDataService.Connect` | src/services/apiDataService.js:15-59 | when connected, returns the current socket and changes nothing; otherwise installs the new socket, or reconnects if constructing it throws |
| `ApiClient.ApiDataService.OnOpen` | src/services/apiDataService.js:25-30 | connected and the counter reset to 0 |
| `ApiClient.ApiDataService.OnClose` | src/services/apiDataService.js:41-46 | disconnected, then exactly one reconnect attempt |
| `ApiClient.ApiDataService.OnError` | src/services/apiDataService.js:48-52 | disconnected, with no reconnect attempt |
| `ApiClient.ApiDataService.AttemptReconnect` | src/services/apiDataService.js:62-70 | below the cap of 5, the counter rises by one and one retry is scheduled at `3000 * 2^(attempts-1)`; at the cap nothing changes; the counter never exceeds 5 |
| `ApiClient.ApiDataService.On` | src/services/apiDataService.js:91-96 | the listeners become Registered; the connection state is unchanged |
| `ApiClient.ApiDataService.Off` | src/services/apiDataService.js:99-107 | the listeners become Unregistered; the connection state is unchanged |
| `ApiClient.ApiDataService.NotifyListeners` | src/services/apiDataService.js:110-123 | every listener of the event is invoked once, in registration order, each with the data |
| `ApiClient.ApiDataService.HandleWebSocketMessage` | src/services/apiDataService.js:73-88 | INITIAL_DATA notifies 'initial-data'; DATA_UPDATE with data notifies 'data-update' and without data notifies no one; any other type notifies no one |
| `ApiClient.ApiDataService.OnMessage` | src/services/apiDataService.js:32-39 | a frame that does not parse, an unknown type, or a DATA_UPDATE without data (its exception caught here) notifies no one; INITIAL_DATA notifies 'initial-data' with its data, null or undefined included; a known frame with data notifies its event's listeners |
| `ApiClient.ApiDataService.Disconnect` | src/services/apiDataService.js:226-233 | only when a socket exists: the socket is dropped, not connected, all listeners cleared; the counter is kept |

## Left out

- Reading and writing the data file, JSON serialisation, and every 500 response from a failed read or write. The data file is the field `doc`.
- Express routing, CORS, body parsing, the 10 MB body limit and server start-up on `PORT` (backend/server.js:1-19, 331-336). Responses are status codes with bodies.
- `Date.now()` id generation. The id is a parameter, because the code does not guarantee it is unique.
- The load-modify-store race between requests queued back to back. This is a concurrency issue.
- Record fields other than strings. A record is `map<string, string>`, so a numeric `id`, which never `===` a path parameter in the source, cannot be written.
- A stored document that lacks `categories` or `websites`. The source's list endpoints fall back to `[]`, and the handlers that read the missing collection throw (500). A modelled `Document` always has both.
- Server.Server.SaveData: the source accepts any object body, an array included, and writes it as is. The model's object bodies are documents.
- Handling of client-to-server WebSocket messages, which the server only logs (backend/server.js:97-100).
- The failure of the initial INITIAL_DATA send when the file cannot be read (backend/server.js:92-94). This is an I/O failure.
- The resolution and rejection of the Promise that `connect()` returns; `resolve`, `reject` and the Promise's state are not modelled.
- Handlers of an earlier socket that fire after `connect()` has replaced `ws`.
- The transport effect of `ws.close()`.
- Timers firing. A fired retry is an ordinary later call of `Connect`.
- Console logging.
- The URL, method and JSON body that `fetchData` builds. `getAllData`, `saveAllData`, `getCategory`, `getWebsite`, `deleteCategory` and `deleteWebsite` return `fetchData`'s result unchanged, which is `ApiClient.Fetch`.
- ApiClient.UnwrapList: a field holding a truthy value that is not a list would be returned as is by `|| []`. The model returns `[]`; the server never sends such a field.
- ApiClient.UnwrapRecord: a field holding a truthy value that is not a record would be returned as is by `|| null`. The model returns null.
- Listener callbacks' own effects. This includes a callback that calls `on` or `off` while `notifyListeners` iterates. A callback that throws is caught and does not stop later listeners, so the model records every call.
- Notifier.BroadcastFidelity: the client set is fixed for the whole run of broadcasts, and the client must be OPEN at each one.
- The `getInstance` singleton.
- src/services/dataService.js, src/services/fileDataService.js, src/services/serverDataService.js and backend/start.js are not part of this model.
