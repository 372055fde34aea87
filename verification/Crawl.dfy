/** Mining mirrored documents for links to further documents until nothing new turns up. */
module Crawl {
  import opened Options

  datatype Fetched = Body(text: string) | Failed(reason: string)

  datatype Status = Stored | Alias | Unavailable(reason: string)

  datatype Entry = Entry(status: Status, path: Option<string>, sha: Option<string>)

  /** What the miner is run against: the site, the place of a mined document and the address
      read back from it, its digest, and the normalized links in a text. */
  datatype World = World(
    fetch: string -> Fetched,
    legacy: string -> string,
    owner: string -> string,
    hash: string -> string,
    links: string -> set<string>)

  datatype Book = Book(
    items: map<string, Entry>,
    aliases: map<string, string>,
    known: set<string>,
    byHash: map<string, string>,
    files: map<string, string>)

  /** The addresses the mirrored files cite. */
  function Cited(w: World, files: map<string, string>): set<string> {
    set path, url | path in files && url in w.links(files[path]) :: url
  }

  /** A mined document has its own place, which no file held before. */
  ghost predicate Separate(w: World, b: Book) {
    && (forall u :: w.owner(w.legacy(u)) == u)
    && (forall u :: u !in b.items ==> w.legacy(u) !in b.files)
  }

  ghost predicate CollisionFree(w: World) {
    forall s, t :: w.hash(s) == w.hash(t) ==> s == t
  }

  // ----- one result -------------------------------------------------------------

  function Recorded(w: World, b: Book, url: string): Book {
    match w.fetch(url)
    case Failed(reason) =>
      b.(known := b.known + {url}, items := b.items[url := Entry(Unavailable(reason), None, None)])
    case Body(text) =>
      var sha := w.hash(text);
      if sha in b.byHash then
        b.(known := b.known + {url},
           aliases := b.aliases[url := b.byHash[sha]],
           files := b.files - {w.legacy(url)},
           items := b.items[url := Entry(Alias, Some(b.byHash[sha]), Some(sha))])
      else
        b.(known := b.known + {url},
           byHash := b.byHash[sha := w.legacy(url)],
           items := b.items[url := Entry(Stored, Some(w.legacy(url)), Some(sha))])
  }

  // ----- what mining keeps -----------------------------------------------------------

  predicate Mined(start: Book, b: Book, url: string) {
    url in b.known && url !in start.known
  }

  /** A mined address is in the ledger: unavailable, or under the one file that has its
      digest; it is an alias unless that file is its own. */
  predicate Resolves(w: World, b: Book, url: string) {
    url in b.items &&
    match w.fetch(url)
    case Failed(reason) => b.items[url] == Entry(Unavailable(reason), None, None)
    case Body(text) =>
      var sha := w.hash(text);
      && sha in b.byHash
      && (|| (b.items[url] == Entry(Alias, Some(b.byHash[sha]), Some(sha)) && url in b.aliases && b.aliases[url] == b.byHash[sha])
          || (b.items[url] == Entry(Stored, Some(b.byHash[sha]), Some(sha)) && b.byHash[sha] == w.legacy(url)))
  }

  /** Digests lead to files, which are the first ones or those of mined addresses. */
  ghost predicate Indexed(w: World, start: Book, b: Book) {
    && (forall h :: h in b.byHash ==> b.byHash[h] in b.files && w.hash(b.files[b.byHash[h]]) == h)
    && (forall h :: h in b.byHash ==> b.byHash[h] in start.files || (Mined(start, b, w.owner(b.byHash[h])) && w.legacy(w.owner(b.byHash[h])) == b.byHash[h]))
  }

  ghost predicate FilesKept(start: Book, b: Book) {
    forall path :: path in start.files ==> path in b.files && b.files[path] == start.files[path]
  }

  /** Each further file is a document fetched for an address that is mined or about to be. */
  ghost predicate FilesExplained(w: World, start: Book, b: Book, rest: set<string>) {
    forall path :: path in b.files && path !in start.files ==> Explained(w, start, b, rest, path, w.owner(path))
  }

  predicate Explained(w: World, start: Book, b: Book, rest: set<string>, path: string, u: string) {
    && (Mined(start, b, u) || u in rest) && w.fetch(u).Body? && w.legacy(u) == path
    && path in b.files && b.files[path] == w.fetch(u).text
  }

  ghost predicate RestOnDisk(w: World, b: Book, rest: set<string>) {
    forall u :: u in rest ==>
      && w.owner(w.legacy(u)) == u
      && (w.fetch(u).Body? <==> w.legacy(u) in b.files)
      && (w.fetch(u).Body? ==> b.files[w.legacy(u)] == w.fetch(u).text)
  }

  /** The place of a mined address holds a file if its entry says so, and then what was
      fetched; in particular the file of an alias is gone. */
  ghost predicate PlacesRight(w: World, start: Book, b: Book) {
    forall u :: Mined(start, b, u) ==> PlaceRight(w, b, u)
  }

  predicate PlaceRight(w: World, b: Book, u: string) {
    && u in b.items && w.owner(w.legacy(u)) == u
    && (w.legacy(u) in b.files <==> b.items[u].status == Stored)
    && (w.legacy(u) in b.files ==> w.fetch(u) == Body(b.files[w.legacy(u)]))
  }

  ghost predicate LedgerGrows(start: Book, b: Book, rest: set<string>) {
    && (forall u :: u in start.known ==> u in b.known)
    && (forall u :: u in b.known <==> u in b.items)
    && (forall u :: u in rest ==> u !in b.known)
    && (forall u :: u in start.items ==> u in b.items && b.items[u] == start.items[u])
  }

  ghost predicate AllResolve(w: World, start: Book, b: Book) {
    forall u :: Mined(start, b, u) ==> Resolves(w, b, u)
  }

  ghost predicate Mining(w: World, start: Book, b: Book, rest: set<string>) {
    && LedgerGrows(start, b, rest) && AllResolve(w, start, b) && Indexed(w, start, b)
    && FilesKept(start, b) && FilesExplained(w, start, b, rest) && RestOnDisk(w, b, rest) && PlacesRight(w, start, b)
  }

  /** A consistent ledger to start from. */
  ghost predicate Consistent(w: World, b: Book) {
    b.known == b.items.Keys && forall h :: h in b.byHash ==> b.byHash[h] in b.files && w.hash(b.files[b.byHash[h]]) == h
  }

  /** `url` is new and its place is its own. */
  ghost predicate Fresh(w: World, start: Book, url: string) {
    && url !in start.known && url !in start.items && w.legacy(url) !in start.files
    && w.owner(w.legacy(url)) == url
  }

  lemma ResolvesNow(w: World, b: Book, url: string)
    ensures Resolves(w, Recorded(w, b, url), url)
  {
  }

  lemma ResolvesStill(w: World, b: Book, url: string, u: string)
    requires Resolves(w, b, u) && u != url
    ensures Resolves(w, Recorded(w, b, url), u)
  {
  }

  /** The place of `url` is free for it, and its download is there. */
  ghost predicate Placed(w: World, b: Book, url: string) {
    && (forall h :: h in b.byHash ==> b.byHash[h] != w.legacy(url))
    && (w.fetch(url).Body? ==> w.legacy(url) in b.files && b.files[w.legacy(url)] == w.fetch(url).text)
  }

  lemma RecordIndexed(w: World, start: Book, b: Book, url: string)
    requires Placed(w, b, url) && Fresh(w, start, url) && Indexed(w, start, b)
    ensures Indexed(w, start, Recorded(w, b, url))
  {
  }

  lemma RecordExplained(w: World, start: Book, b: Book, rest: set<string>, url: string)
    requires Fresh(w, start, url) && FilesExplained(w, start, b, rest)
    ensures FilesExplained(w, start, Recorded(w, b, url), rest - {url})
  {
    var after := Recorded(w, b, url);
    forall path | path in after.files && path !in start.files ensures Explained(w, start, after, rest - {url}, path, w.owner(path)) {
      assert Explained(w, start, b, rest, path, w.owner(path));
    }
  }

  lemma RecordOnDisk(w: World, b: Book, rest: set<string>, url: string)
    requires RestOnDisk(w, b, rest) && w.owner(w.legacy(url)) == url
    ensures RestOnDisk(w, Recorded(w, b, url), rest - {url})
  {
  }

  lemma RecordGrows(start: Book, w: World, b: Book, rest: set<string>, url: string)
    requires LedgerGrows(start, b, rest) && url in rest
    ensures LedgerGrows(start, Recorded(w, b, url), rest - {url})
  {
  }

  lemma RecordFilesKept(w: World, start: Book, b: Book, url: string)
    requires FilesKept(start, b) && w.legacy(url) !in start.files
    ensures FilesKept(start, Recorded(w, b, url))
  {
  }

  lemma RecordAllResolve(w: World, start: Book, b: Book, url: string)
    requires AllResolve(w, start, b)
    ensures AllResolve(w, start, Recorded(w, b, url))
  {
    ResolvesNow(w, b, url);
    forall u | Mined(start, Recorded(w, b, url), u) ensures Resolves(w, Recorded(w, b, url), u) {
      if u != url { ResolvesStill(w, b, url, u); }
    }
  }

  lemma RecordPlaces(w: World, start: Book, b: Book, rest: set<string>, url: string)
    requires PlacesRight(w, start, b) && RestOnDisk(w, b, rest) && url in rest
    ensures PlacesRight(w, start, Recorded(w, b, url))
  {
    var after := Recorded(w, b, url);
    forall u | Mined(start, after, u) ensures PlaceRight(w, after, u) {
      if u != url { assert Mined(start, b, u) && PlaceRight(w, b, u); }
    }
  }

  lemma PlaceIsFree(w: World, start: Book, b: Book, rest: set<string>, url: string)
    requires Fresh(w, start, url) && url !in b.known && Indexed(w, start, b) && RestOnDisk(w, b, rest) && url in rest
    ensures Placed(w, b, url)
  {
  }

  lemma RecordKeeps(w: World, start: Book, b: Book, rest: set<string>, url: string)
    requires Mining(w, start, b, rest) && url in rest && Fresh(w, start, url)
    ensures Mining(w, start, Recorded(w, b, url), rest - {url})
  {
    PlaceIsFree(w, start, b, rest, url);
    RecordIndexed(w, start, b, url);
    RecordExplained(w, start, b, rest, url);
    RecordOnDisk(w, b, rest, url);
    RecordGrows(start, w, b, rest, url);
    RecordFilesKept(w, start, b, url);
    RecordAllResolve(w, start, b, url);
    RecordPlaces(w, start, b, rest, url);
  }

  // ----- one batch of downloads ------------------------------------------------------

  function Saved(w: World, b: Book, url: string): Book {
    match w.fetch(url)
    case Body(text) => b.(files := b.files[w.legacy(url) := text])
    case Failed(_) => b
  }

  lemma SavedExplained(w: World, start: Book, b: Book, rest: set<string>, url: string)
    requires FilesExplained(w, start, b, rest) && Fresh(w, start, url)
    ensures FilesExplained(w, start, Saved(w, b, url), rest + {url})
  {
    var after := Saved(w, b, url);
    forall path | path in after.files && path !in start.files ensures Explained(w, start, after, rest + {url}, path, w.owner(path)) {
      if !(w.fetch(url).Body? && path == w.legacy(url)) { assert Explained(w, start, b, rest, path, w.owner(path)); }
    }
  }

  lemma SavedIndexed(w: World, start: Book, b: Book, url: string)
    requires Indexed(w, start, b) && Fresh(w, start, url) && url !in b.known
    ensures Indexed(w, start, Saved(w, b, url))
  {
  }

  lemma SavedOnDisk(w: World, start: Book, b: Book, rest: set<string>, url: string)
    requires RestOnDisk(w, b, rest) && FilesExplained(w, start, b, rest) && Fresh(w, start, url)
    ensures RestOnDisk(w, Saved(w, b, url), rest + {url})
  {
    assert w.legacy(url) in b.files ==> Explained(w, start, b, rest, w.legacy(url), w.owner(w.legacy(url)));
  }

  lemma SavedPlaces(w: World, start: Book, b: Book, url: string)
    requires PlacesRight(w, start, b) && Fresh(w, start, url) && url !in b.known
    ensures PlacesRight(w, start, Saved(w, b, url))
  {
    forall u | Mined(start, Saved(w, b, url), u) ensures PlaceRight(w, Saved(w, b, url), u) {
      assert Mined(start, b, u) && PlaceRight(w, b, u);
    }
  }

  lemma SavedResolves(w: World, start: Book, b: Book, url: string)
    requires AllResolve(w, start, b)
    ensures AllResolve(w, start, Saved(w, b, url))
  {
    forall u | Mined(start, Saved(w, b, url), u) ensures Resolves(w, Saved(w, b, url), u) {
      assert Mined(start, b, u);
    }
  }

  lemma SaveKeeps(w: World, start: Book, b: Book, rest: set<string>, url: string)
    requires Mining(w, start, b, rest) && Fresh(w, start, url) && url !in b.known
    ensures Mining(w, start, Saved(w, b, url), rest + {url})
  {
    SavedExplained(w, start, b, rest, url);
    SavedIndexed(w, start, b, url);
    SavedOnDisk(w, start, b, rest, url);
    SavedResolves(w, start, b, url);
    SavedPlaces(w, start, b, url);
  }

  // ----- closed sets of addresses ------------------------------------------------------

  /** Holds what was known and what the first files cite, and with each fetched document
      what that cites. */
  ghost predicate Closed(w: World, start: Book, all: set<string>) {
    && start.known <= all && Cited(w, start.files) <= all
    && forall u :: u in all && u !in start.known && w.fetch(u).Body? ==> w.links(w.fetch(u).text) <= all
  }

  /** Only what must be known is. */
  ghost predicate Minimal(w: World, start: Book, known: set<string>) {
    forall all :: Closed(w, start, all) ==> known <= all
  }

  lemma CitedIsNeeded(w: World, start: Book, b: Book, all: set<string>)
    requires Mining(w, start, b, {}) && Closed(w, start, all) && b.known <= all
    ensures Cited(w, b.files) <= all
  {
    forall url | url in Cited(w, b.files) ensures url in all {
      var path :| path in b.files && url in w.links(b.files[path]);
      if path in start.files {
        assert b.files[path] == start.files[path];
        assert url in Cited(w, start.files);
      } else {
        assert Explained(w, start, b, {}, path, w.owner(path));
      }
    }
  }

  /** The addresses within so many rounds of following links. */
  function Reached(w: World, start: Book, rounds: nat): set<string> {
    if rounds == 0 then start.known
    else
      var before := Reached(w, start, rounds - 1);
      before + Cited(w, start.files)
      + set u, x | u in before && u !in start.known && w.fetch(u).Body? && x in w.links(w.fetch(u).text) :: x
  }

  /** Deleting the files of aliases loses no link: what a mined document cites is cited by
      the file it is an alias of. */
  lemma LinksStayCited(w: World, start: Book, b: Book, u: string)
    requires Indexed(w, start, b) && AllResolve(w, start, b) && CollisionFree(w)
    requires Mined(start, b, u) && w.fetch(u).Body?
    ensures w.links(w.fetch(u).text) <= Cited(w, b.files)
  {
    assert Resolves(w, b, u);
    var path := b.byHash[w.hash(w.fetch(u).text)];
    assert b.files[path] == w.fetch(u).text;
  }

  lemma FirstFilesStayCited(w: World, start: Book, b: Book)
    requires FilesKept(start, b)
    ensures Cited(w, start.files) <= Cited(w, b.files)
  {
    forall url | url in Cited(w, start.files) ensures url in Cited(w, b.files) {
      var path :| path in start.files && url in w.links(start.files[path]);
      assert path in b.files && b.files[path] == start.files[path];
    }
  }

  lemma ReachesOneMore(w: World, start: Book, b: Book, n: nat, known: set<string>)
    requires Indexed(w, start, b) && AllResolve(w, start, b) && FilesKept(start, b) && CollisionFree(w)
    requires Reached(w, start, n) <= b.known && b.known <= known && Cited(w, b.files) <= known
    ensures Reached(w, start, n + 1) <= known
  {
    FirstFilesStayCited(w, start, b);
    forall u, x | u in Reached(w, start, n) && u !in start.known && w.fetch(u).Body? && x in w.links(w.fetch(u).text) ensures x in known {
      LinksStayCited(w, start, b, u);
    }
  }

  // ----- mining --------------------------------------------------------------------------

  ghost predicate AllFresh(w: World, start: Book, urls: set<string>) {
    forall u :: u in urls ==> Fresh(w, start, u)
  }

  method SaveAll(w: World, ghost start: Book, b0: Book, pending: set<string>) returns (b: Book)
    requires Mining(w, start, b0, {}) && pending !! b0.known && AllFresh(w, start, pending)
    ensures Mining(w, start, b, pending) && b.known == b0.known
  {
    b := b0;
    var rest := pending;
    assert pending - rest == {};
    while rest != {}
      invariant rest <= pending && b.known == b0.known && Mining(w, start, b, pending - rest)
      decreases |rest|
    {
      var u :| u in rest;
      SaveKeeps(w, start, b, pending - rest, u);
      assert pending - (rest - {u}) == (pending - rest) + {u};
      b := Saved(w, b, u);
      rest := rest - {u};
    }
    assert pending - rest == pending;
  }

  method RecordOne(w: World, ghost start: Book, b: Book, ghost rest: set<string>, url: string) returns (after: Book)
    requires Mining(w, start, b, rest) && url in rest && Fresh(w, start, url)
    ensures Mining(w, start, after, rest - {url}) && after.known == b.known + {url}
  {
    RecordKeeps(w, start, b, rest, url);
    after := Recorded(w, b, url);
  }

  method RecordAll(w: World, ghost start: Book, b0: Book, pending: set<string>) returns (b: Book)
    requires Mining(w, start, b0, pending) && AllFresh(w, start, pending)
    ensures Mining(w, start, b, {}) && b0.known <= b.known <= b0.known + pending && pending <= b.known
  {
    b := b0;
    var rest := pending;
    while rest != {}
      invariant rest <= pending && b0.known <= b.known <= b0.known + pending && pending - rest <= b.known
      invariant Mining(w, start, b, rest)
      decreases |rest|
    {
      var u :| u in rest;
      b := RecordOne(w, start, b, rest, u);
      rest := rest - {u};
    }
  }

  lemma NewIsFresh(w: World, start: Book, b: Book, url: string)
    requires Separate(w, start) && start.known == start.items.Keys && start.known <= b.known && url !in b.known
    ensures Fresh(w, start, url)
  {
  }

  lemma StartsMining(w: World, start: Book)
    requires Consistent(w, start)
    ensures Mining(w, start, start, {})
  {
  }

  lemma PendingIsNeeded(w: World, start: Book, b: Book, pending: set<string>)
    requires Separate(w, start) && start.known == start.items.Keys && Mining(w, start, b, {})
    requires Minimal(w, start, b.known) && pending == Cited(w, b.files) - b.known
    ensures AllFresh(w, start, pending) && pending !! b.known && Minimal(w, start, b.known + pending)
  {
    forall u | u in pending ensures Fresh(w, start, u) { NewIsFresh(w, start, b, u); }
    forall all | Closed(w, start, all) ensures b.known + pending <= all { CitedIsNeeded(w, start, b, all); }
  }

  lemma RoundDone(w: World, start: Book, was: set<string>, cited: set<string>, now: set<string>)
    requires Minimal(w, start, was + (cited - was)) && was <= now <= was + (cited - was) && cited - was <= now
    ensures Minimal(w, start, now) && cited <= now
  {
  }

  method MineOnce(w: World, ghost start: Book, b0: Book) returns (b: Book, converged: bool)
    requires Separate(w, start) && start.known == start.items.Keys
    requires Mining(w, start, b0, {}) && Minimal(w, start, b0.known)
    ensures Mining(w, start, b, {}) && Minimal(w, start, b.known)
    ensures converged ==> Cited(w, b.files) <= b.known
    ensures b0.known <= b.known && Cited(w, b0.files) <= b.known
  {
    var pending := Cited(w, b0.files) - b0.known;
    if pending == {} { return b0, true; }
    PendingIsNeeded(w, start, b0, pending);
    var saved := SaveAll(w, start, b0, pending);
    b := RecordAll(w, start, saved, pending);
    RoundDone(w, start, b0.known, Cited(w, b0.files), b.known);
    return b, false;
  }

  /** At most `rounds` rounds; `converged` when a scan finds nothing new. */
  method MineToFixedPoint(w: World, start: Book, rounds: nat) returns (b: Book, converged: bool)
    requires Separate(w, start) && Consistent(w, start)
    ensures Mining(w, start, b, {}) && Minimal(w, start, b.known)
    ensures converged ==> Cited(w, b.files) <= b.known
    ensures CollisionFree(w) ==> converged || Reached(w, start, rounds) <= b.known
  {
    b, converged := start, false;
    StartsMining(w, start);
    var n := 0;
    while n < rounds && !converged
      invariant Mining(w, start, b, {}) && Minimal(w, start, b.known)
      invariant converged ==> Cited(w, b.files) <= b.known
      invariant n <= rounds && (CollisionFree(w) ==> Reached(w, start, n) <= b.known)
      decreases rounds - n
    {
      ghost var before := b;
      b, converged := MineOnce(w, start, b);
      if CollisionFree(w) { ReachesOneMore(w, start, before, n, b.known); }
      n := n + 1;
    }
  }

  /** Converged mining knows exactly the least closed set: it dropped no link with the alias
      files it deleted, and followed every link of every document it fetched. */
  lemma ConvergedIsLeast(w: World, start: Book, b: Book)
    requires Mining(w, start, b, {}) && Minimal(w, start, b.known) && Cited(w, b.files) <= b.known && CollisionFree(w)
    ensures Closed(w, start, b.known) && forall all :: Closed(w, start, all) ==> b.known <= all
  {
    FirstFilesStayCited(w, start, b);
    forall u | u in b.known && u !in start.known && w.fetch(u).Body? ensures w.links(w.fetch(u).text) <= b.known {
      LinksStayCited(w, start, b, u);
    }
  }

  /** After mining, the files added are exactly the places of the addresses booked as stored,
      each with what was fetched from there: the copies are gone. */
  lemma AddedAreStored(w: World, start: Book, b: Book, path: string)
    requires Mining(w, start, b, {}) && Separate(w, start) && start.known == start.items.Keys
    ensures path in b.files && path !in start.files <==>
      exists u :: Mined(start, b, u) && b.items[u].status == Stored && w.legacy(u) == path
    ensures forall u :: Mined(start, b, u) && b.items[u].status == Stored ==> w.fetch(u) == Body(b.files[w.legacy(u)])
  {
    forall u | Mined(start, b, u) ensures PlaceRight(w, b, u) && w.legacy(u) !in start.files { }
    if path in b.files && path !in start.files {
      var u := w.owner(path);
      assert Explained(w, start, b, {}, path, u);
      assert Mined(start, b, u) && PlaceRight(w, b, u);
    }
  }

  /** Every alias leads to a file with its digest, and no two mined documents that are kept
      share one. */
  lemma AliasesAreCopies(w: World, start: Book, b: Book, u: string, v: string)
    requires b.known == b.items.Keys && Indexed(w, start, b) && AllResolve(w, start, b) && Mined(start, b, u) && Mined(start, b, v)
    requires w.legacy(u) == w.legacy(v) ==> u == v
    ensures b.items[u].status == Alias ==>
      w.fetch(u).Body? && u in b.aliases && b.aliases[u] in b.files && w.hash(b.files[b.aliases[u]]) == w.hash(w.fetch(u).text)
    ensures b.items[u].status == Stored && b.items[v].status == Stored && b.items[u].sha == b.items[v].sha ==> u == v
  {
    assert Resolves(w, b, u) && Resolves(w, b, v);
  }
}
