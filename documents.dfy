/**
 * The stored document `{categories, websites}` of backend/server.js and the
 * changes the request handlers make to it, as functions from the document
 * before a request to the document after it.
 *
 * A record is a JSON object whose fields are strings, so the object spread
 * `{...a, ...b}` is map union with the right operand winning.
 */
module Documents {
  import opened Wrappers
  import opened Seqs

  type Record = map<string, string>

  const IdField := "id"
  const CategoryIdField := "categoryId"

  datatype Document = Document(categories: seq<Record>, websites: seq<Record>)

  /** Which of the two collections a handler works on. */
  datatype Collection = Categories | Websites

  function Other(k: Collection): Collection {
    if k == Categories then Websites else Categories
  }

  function Records(d: Document, k: Collection): seq<Record> {
    if k == Categories then d.categories else d.websites
  }

  /** The document with collection `k` reassigned to `rs`, as `data.websites = ...` does. */
  function WithRecords(d: Document, k: Collection, rs: seq<Record>): (r: Document)
    ensures Records(r, k) == rs
    ensures Records(r, Other(k)) == Records(d, Other(k))
  {
    if k == Categories then d.(categories := rs) else d.(websites := rs)
  }

  /** `r.id === id`: a record without an `id` field matches no id. */
  predicate HasId(r: Record, id: string) {
    IdField in r && r[IdField] == id
  }

  /** `w.categoryId === c`. */
  predicate InCategory(w: Record, c: string) {
    CategoryIdField in w && w[CategoryIdField] == c
  }

  function IdIs(id: string): Record -> bool { r => HasId(r, id) }
  function IdIsNot(id: string): Record -> bool { r => !HasId(r, id) }
  function CategoryIs(c: string): Record -> bool { w => InCategory(w, c) }
  function CategoryIsNot(c: string): Record -> bool { w => !InCategory(w, c) }

  /** `{id: newId, ...body}`: a caller-supplied `id` overrides the generated one. */
  function NewRecord(newId: string, body: Record): (r: Record)
    ensures r.Keys == body.Keys + {IdField}
    ensures forall f :: f in body ==> r[f] == body[f]
    ensures IdField !in body ==> r[IdField] == newId
  {
    map[IdField := newId] + body
  }

  /** `{...old, ...body}`: body fields win, fields the body leaves out keep their old values. */
  function Merge(prev: Record, body: Record): (r: Record)
    ensures r.Keys == prev.Keys + body.Keys
    ensures forall f :: f in body ==> r[f] == body[f]
    ensures forall f :: f in prev && f !in body ==> r[f] == prev[f]
  {
    prev + body
  }

  /** `rs.findIndex(r => r.id === id)`. */
  function FindIndex(rs: seq<Record>, id: string): (r: Option<nat>)
    ensures r.None? <==> forall j :: 0 <= j < |rs| ==> !HasId(rs[j], id)
    ensures r.Some? ==> r.value < |rs| && HasId(rs[r.value], id)
    ensures r.Some? ==> forall j :: 0 <= j < r.value ==> !HasId(rs[j], id)
  {
    FirstIndex(rs, IdIs(id))
  }

  /** `rs.find(r => r.id === id)`: the first record with that id. */
  function Find(rs: seq<Record>, id: string): (r: Option<Record>)
    ensures r.None? <==> forall j :: 0 <= j < |rs| ==> !HasId(rs[j], id)
    ensures r.Some? ==> exists i :: 0 <= i < |rs| && rs[i] == r.value && HasId(rs[i], id)
                                   && forall j :: 0 <= j < i ==> !HasId(rs[j], id)
  {
    match FindIndex(rs, id)
    case None => None
    case Some(i) => Some(rs[i])
  }

  /** `data.websites.filter(w => w.categoryId === c)`: the websites of category `c`, in document order. */
  function WebsitesIn(d: Document, c: string): (r: seq<Record>)
    ensures forall j :: 0 <= j < |r| ==> InCategory(r[j], c) && r[j] in d.websites
    ensures forall j :: 0 <= j < |d.websites| && InCategory(d.websites[j], c) ==> d.websites[j] in r
  {
    Filter(d.websites, CategoryIs(c))
  }

  /** POST /api/categories and POST /api/websites: the new record is appended to collection `k`. */
  function Added(d: Document, k: Collection, newId: string, body: Record): (r: Document)
    ensures |Records(r, k)| == |Records(d, k)| + 1
    ensures Records(r, k)[..|Records(d, k)|] == Records(d, k)
    ensures Records(r, k)[|Records(d, k)|] == NewRecord(newId, body)
    ensures Records(r, Other(k)) == Records(d, Other(k))
  {
    WithRecords(d, k, Records(d, k) + [NewRecord(newId, body)])
  }

  /**
   * PUT /api/categories/:id and PUT /api/websites/:id: None when no record of
   * collection `k` has the id, otherwise the document in which exactly the
   * first such record has the body merged into it.
   */
  function Updated(d: Document, k: Collection, id: string, body: Record): (r: Option<Document>)
    ensures r.None? <==> forall j :: 0 <= j < |Records(d, k)| ==> !HasId(Records(d, k)[j], id)
    ensures r.Some? ==>
      var i := FindIndex(Records(d, k), id).value;
      && |Records(r.value, k)| == |Records(d, k)|
      && Records(r.value, k)[i] == Merge(Records(d, k)[i], body)
      && (forall j :: 0 <= j < |Records(d, k)| && j != i ==> Records(r.value, k)[j] == Records(d, k)[j])
      && Records(r.value, Other(k)) == Records(d, Other(k))
  {
    match FindIndex(Records(d, k), id)
    case None => None
    case Some(i) => Some(WithRecords(d, k, Records(d, k)[i := Merge(Records(d, k)[i], body)]))
  }

  /**
   * DELETE /api/categories/:id: the websites of category `c` go first, then
   * every category with id `c`.
   */
  function CategoryDeleted(d: Document, c: string): (r: Document)
    ensures forall j :: 0 <= j < |r.categories| ==> !HasId(r.categories[j], c) && r.categories[j] in d.categories
    ensures forall j :: 0 <= j < |r.websites| ==> !InCategory(r.websites[j], c) && r.websites[j] in d.websites
    ensures forall j :: 0 <= j < |d.categories| && !HasId(d.categories[j], c) ==> d.categories[j] in r.categories
    ensures forall j :: 0 <= j < |d.websites| && !InCategory(d.websites[j], c) ==> d.websites[j] in r.websites
  {
    var websites := Filter(d.websites, CategoryIsNot(c));
    var categories := Filter(d.categories, IdIsNot(c));
    Document(categories, websites)
  }

  /** DELETE /api/websites/:id: every website with that id goes; categories are untouched. */
  function WebsiteDeleted(d: Document, id: string): (r: Document)
    ensures r.categories == d.categories
    ensures forall j :: 0 <= j < |r.websites| ==> !HasId(r.websites[j], id) && r.websites[j] in d.websites
    ensures forall j :: 0 <= j < |d.websites| && !HasId(d.websites[j], id) ==> d.websites[j] in r.websites
  {
    d.(websites := Filter(d.websites, IdIsNot(id)))
  }

  /** The document written when the data file does not exist yet. */
  function Seed(): Document {
    Document(
      [ map["id" := "1", "name" := "\U{5F00}\U{53D1}\U{5DE5}\U{5177}", "icon" := "\U{1F4BB}"],
        map["id" := "2", "name" := "\U{5B66}\U{4E60}\U{8D44}\U{6E90}", "icon" := "\U{1F4DA}"],
        map["id" := "3", "name" := "\U{793E}\U{4EA4}\U{5A92}\U{4F53}", "icon" := "\U{1F4F1}"] ],
      [ map["id" := "1", "name" := "GitHub", "url" := "https://github.com", "categoryId" := "1",
            "icon" := "https://github.githubassets.com/favicons/favicon.ico"],
        map["id" := "2", "name" := "Stack Overflow", "url" := "https://stackoverflow.com", "categoryId" := "1",
            "icon" := "https://cdn.sstatic.net/Sites/stackoverflow/Img/favicon.ico"],
        map["id" := "3", "name" := "MDN Web Docs", "url" := "https://developer.mozilla.org", "categoryId" := "2",
            "icon" := "https://developer.mozilla.org/favicon.ico"] ])
  }

  // ---------------------------------------------------------------------------
  // Properties relating several operations.

  /** Deletion keeps the survivors in document order: it distributes over any split of either collection. */
  lemma CategoryDeletedKeepsOrder(d: Document, c: string, n: nat, m: nat)
    requires n <= |d.categories| && m <= |d.websites|
    ensures CategoryDeleted(d, c).categories
         == CategoryDeleted(d.(categories := d.categories[..n]), c).categories
          + CategoryDeleted(d.(categories := d.categories[n..]), c).categories
    ensures CategoryDeleted(d, c).websites
         == CategoryDeleted(d.(websites := d.websites[..m]), c).websites
          + CategoryDeleted(d.(websites := d.websites[m..]), c).websites
  {
    assert d.categories == d.categories[..n] + d.categories[n..];
    assert d.websites == d.websites[..m] + d.websites[m..];
    FilterConcat(d.categories[..n], d.categories[n..], IdIsNot(c));
    FilterConcat(d.websites[..m], d.websites[m..], CategoryIsNot(c));
  }

  /** Deleting a category nobody has and nobody references leaves the document as it was. */
  lemma CategoryDeletedAbsent(d: Document, c: string)
    requires forall j :: 0 <= j < |d.categories| ==> !HasId(d.categories[j], c)
    requires forall j :: 0 <= j < |d.websites| ==> !InCategory(d.websites[j], c)
    ensures CategoryDeleted(d, c) == d
  {
    FilterKeepsAll(d.categories, IdIsNot(c));
    FilterKeepsAll(d.websites, CategoryIsNot(c));
  }

  /** Deleting a website id nobody has leaves the document as it was. */
  lemma WebsiteDeletedAbsent(d: Document, id: string)
    requires forall j :: 0 <= j < |d.websites| ==> !HasId(d.websites[j], id)
    ensures WebsiteDeleted(d, id) == d
  {
    FilterKeepsAll(d.websites, IdIsNot(id));
  }

  /** Deleting the same category twice is the same as deleting it once. */
  lemma CategoryDeletedIdempotent(d: Document, c: string)
    ensures CategoryDeleted(CategoryDeleted(d, c), c) == CategoryDeleted(d, c)
  {
    CategoryDeletedAbsent(CategoryDeleted(d, c), c);
  }

  /** After the cascade, listing the deleted category's websites gives nothing. */
  lemma CascadeLeavesNoWebsites(d: Document, c: string)
    ensures WebsitesIn(CategoryDeleted(d, c), c) == []
  {
    FilterKeepsNone(CategoryDeleted(d, c).websites, CategoryIs(c));
  }

  /**
   * The websites of `c` are empty exactly when no website carries categoryId
   * `c`; whether a category with id `c` exists plays no part.
   */
  lemma WebsitesInEmpty(d: Document, c: string)
    ensures WebsitesIn(d, c) == [] <==> forall j :: 0 <= j < |d.websites| ==> !InCategory(d.websites[j], c)
  {
    if forall j :: 0 <= j < |d.websites| ==> !InCategory(d.websites[j], c) {
      FilterKeepsNone(d.websites, CategoryIs(c));
    }
  }

  /** The websites of `c` and the websites a cascade of `c` keeps together account for every website. */
  lemma CascadeRemovesExactlyWebsitesIn(d: Document, c: string)
    ensures |CategoryDeleted(d, c).websites| + |WebsitesIn(d, c)| == |d.websites|
  {
    FilterPartition(d.websites, CategoryIsNot(c), CategoryIs(c));
  }

  /** A record created with a newId id and no id of its own is what get-by-id then finds. */
  lemma AddedThenFound(d: Document, k: Collection, newId: string, body: Record)
    requires forall j :: 0 <= j < |Records(d, k)| ==> !HasId(Records(d, k)[j], newId)
    requires IdField !in body
    ensures Find(Records(Added(d, k, newId, body), k), newId) == Some(NewRecord(newId, body))
  {
  }

  /** An update whose body keeps the id is seen by get-by-id as the old record with the body merged in. */
  lemma UpdatedThenFound(d: Document, k: Collection, id: string, body: Record)
    requires IdField !in body || body[IdField] == id
    requires Updated(d, k, id, body).Some?
    ensures Find(Records(Updated(d, k, id, body).value, k), id) == Some(Merge(Find(Records(d, k), id).value, body))
  {
  }

  /** The scenario of the seed document: deleting category "1" leaves 2 categories and 1 website. */
  lemma SeedCascade()
    ensures |CategoryDeleted(Seed(), "1").categories| == 2
    ensures CategoryDeleted(Seed(), "1").websites == [Seed().websites[2]]
  {
    var d := Seed();
    var w0, w1, w2 := d.websites[0], d.websites[1], d.websites[2];
    assert InCategory(w0, "1") && InCategory(w1, "1") && !InCategory(w2, "1");
    assert d.websites[1..][1..] == [w2];
    assert Filter([w2], CategoryIsNot("1")) == [w2];
    assert Filter(d.websites[1..], CategoryIsNot("1")) == [w2];
    var c0, c1, c2 := d.categories[0], d.categories[1], d.categories[2];
    assert HasId(c0, "1") && !HasId(c1, "1") && !HasId(c2, "1");
    assert d.categories[1..][1..] == [c2];
    assert |Filter([c2], IdIsNot("1"))| == 1;
    assert |Filter(d.categories[1..], IdIsNot("1"))| == 2;
  }
}
