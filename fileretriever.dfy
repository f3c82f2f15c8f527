/**
 * The Drive-facing half of the rename pipeline: the query strings the retriever sends,
 * the breadth-first discovery of the folder subtree, the enumeration of candidate files,
 * the loading of names already marked processed, and the record an update writes.
 *
 * The Drive API itself is not modelled. A folder lookup is a function from the listed
 * folder and a query to the ids of all matching children (all pages) or an error; a file
 * listing is a function from a query to the pages fetched before the first failure, plus
 * that failure if there was one.
 */
module FileRetriever {
  import opened Wrappers
  import opened Configuration

  /** The error a Drive API call reports. */
  datatype DriveError = DriveError(message: string)

  /** One file as a Files.List page reports it. */
  datatype DriveFile = DriveFile(id: string, title: string, createdDate: string)

  /** What a paginated Files.List hands to its page callback, in order, and how it ended. */
  datatype Listing = Listing(pages: seq<seq<DriveFile>>, failure: Option<DriveError>)

  /** Children.List(folder).Q(query).Pages(...): every child id on every page, or the error. */
  type FolderLister = (string, string) -> Result<seq<string>, DriveError>

  /** Files.List().Q(query).Pages(...). */
  type FileLister = string -> Listing

  /** A candidate file; the rename step overwrites `name` in place. */
  class RenameInfo {
    const id: string
    var name: string
    const createdDate: string

    constructor (id: string, name: string, createdDate: string)
      ensures this.id == id && this.name == name && this.createdDate == createdDate
    {
      this.id := id;
      this.name := name;
      this.createdDate := createdDate;
    }
  }

  /** A custom Drive file property. */
  datatype Property = Property(key: string, value: string, visibility: string)

  /** The body of a Files.Update call: the file to change, its new title and its properties. */
  datatype FileUpdate = FileUpdate(fileId: string, title: string, properties: seq<Property>)

  // ---------------------------------------------------------------------------
  // Sequence helpers

  function Flatten<T>(xss: seq<seq<T>>): seq<T> {
    if xss == [] then [] else Flatten(xss[..|xss| - 1]) + xss[|xss| - 1]
  }

  lemma FlattenSnoc<T>(xss: seq<seq<T>>, xs: seq<T>)
    ensures Flatten(xss + [xs]) == Flatten(xss) + xs
  {
    assert (xss + [xs])[..|xss|] == xss;
  }

  lemma {:induction false} FlattenCons<T>(xs: seq<T>, xss: seq<seq<T>>)
    ensures Flatten([xs] + xss) == xs + Flatten(xss)
    decreases |xss|
  {
    if xss != [] {
      var init, last := xss[..|xss| - 1], xss[|xss| - 1];
      assert xss == init + [last];
      assert [xs] + xss == ([xs] + init) + [last];
      FlattenSnoc([xs] + init, last);
      FlattenCons(xs, init);
      FlattenSnoc(init, last);
    }
  }

  predicate Distinct<T(==)>(s: seq<T>) {
    forall i, j :: 0 <= i < j < |s| ==> s[i] != s[j]
  }

  // ---------------------------------------------------------------------------
  // Query strings

  const FileProcessedFlag := "file-renamer-processed"

  const FolderClause := "and mimeType = 'application/vnd.google-apps.folder'"

  /** Matches the files carrying the marker an update writes. */
  const ProcessedQuery := "properties has {key='" + FileProcessedFlag + "' and value='true' and visibility='PUBLIC'}"

  function InParents(id: string): string {
    "'" + id + "' in parents "
  }

  function TitleContains(ext: string): string {
    " title contains '." + ext + "' "
  }

  function ParentTerms(ids: seq<string>): (terms: seq<string>)
    ensures |terms| == |ids|
  {
    seq(|ids|, i requires 0 <= i < |ids| => InParents(ids[i]))
  }

  function ExtensionTerms(exts: seq<string>): (terms: seq<string>)
    ensures |terms| == |exts|
  {
    seq(|exts|, i requires 0 <= i < |exts| => TitleContains(exts[i]))
  }

  /** parts[0] + sep + parts[1] + ... + sep + parts[n-1]: every part once, in order. */
  function Join(sep: string, parts: seq<string>): string {
    if |parts| == 0 then ""
    else if |parts| == 1 then parts[0]
    else Join(sep, parts[..|parts| - 1]) + sep + parts[|parts| - 1]
  }

  lemma JoinSnoc(sep: string, parts: seq<string>, x: string)
    requires parts != []
    ensures Join(sep, parts + [x]) == Join(sep, parts) + sep + x
  {
    assert (parts + [x])[..|parts|] == parts;
  }

  /** Children of any of `ids` that are folders; empty when there is nothing to expand. */
  function ChildQuery(ids: seq<string>): string {
    if ids == [] then "" else Join("or ", ParentTerms(ids)) + FolderClause
  }

  /** "(" + the parent terms + ") ", or nothing without folders. */
  function ParentClause(ids: seq<string>): string {
    if ids == [] then "" else "(" + Join("or ", ParentTerms(ids)) + ") "
  }

  /** "and (" + the extension terms + ") ", or nothing without extensions. */
  function ExtensionClause(exts: seq<string>): string {
    if exts == [] then "" else "and (" + Join("or ", ExtensionTerms(exts)) + ") "
  }

  function FileQuery(ids: seq<string>, exts: seq<string>): string {
    ParentClause(ids) + ExtensionClause(exts)
  }

  /** The candidates: files in scope that do not yet carry the processed marker. */
  function EnumerationQuery(ids: seq<string>, exts: seq<string>): string {
    FileQuery(ids, exts) + "and not (" + ProcessedQuery + ")"
  }

  /** The files in scope that already carry the processed marker. */
  function ProcessedFilesQuery(ids: seq<string>, exts: seq<string>): string {
    FileQuery(ids, exts) + "and " + ProcessedQuery
  }

  lemma ParentTermsSnoc(ids: seq<string>, i: nat)
    requires i < |ids|
    ensures ParentTerms(ids[..i + 1]) == ParentTerms(ids[..i]) + [InParents(ids[i])]
  {
  }

  /** buildChildQuery: the loop the source runs, proved to render ChildQuery. */
  method BuildChildQuery(folderIds: seq<string>) returns (query: string)
    ensures query == ChildQuery(folderIds)
  {
    if |folderIds| == 0 {
      return "";
    }
    query := InParents(folderIds[0]);
    assert ParentTerms(folderIds[..1]) == [InParents(folderIds[0])];
    var i := 1;
    while i < |folderIds|
      invariant 1 <= i <= |folderIds|
      invariant query == Join("or ", ParentTerms(folderIds[..i]))
    {
      ParentTermsSnoc(folderIds, i);
      JoinSnoc("or ", ParentTerms(folderIds[..i]), InParents(folderIds[i]));
      query := query + "or " + InParents(folderIds[i]);
      i := i + 1;
    }
    assert folderIds[..i] == folderIds;
    query := query + FolderClause;
  }

  /**
   * What one of buildFileQuery's loops has appended to `start` after `k` of the `terms`:
   * `open` before the first term, "or " before each later one, and ") " after the last.
   */
  function Bracketed(start: string, open: string, terms: seq<string>, k: nat): string
    requires k <= |terms|
  {
    if k == 0 then start
    else
      var written := Bracketed(start, open, terms, k - 1) + (if k == 1 then open else "or ") + terms[k - 1];
      if k == |terms| then written + ") " else written
  }

  /** The loops' output is the bracketed join of the terms written so far. */
  lemma {:induction false} BracketedIsJoin(start: string, open: string, terms: seq<string>, k: nat)
    requires 0 < k <= |terms|
    ensures Bracketed(start, open, terms, k)
         == start + open + Join("or ", terms[..k]) + (if k == |terms| then ") " else "")
  {
    if k == 1 {
      assert terms[..1] == [terms[0]];
    } else {
      BracketedIsJoin(start, open, terms, k - 1);
      var before := terms[..k - 1];
      assert terms[..k] == before + [terms[k - 1]];
      JoinSnoc("or ", before, terms[k - 1]);
      assert Bracketed(start, open, terms, k - 1) == start + open + Join("or ", before);
    }
  }

  /** A finished loop appends the bracketed join of all terms, or nothing without terms. */
  lemma BracketedAll(start: string, open: string, terms: seq<string>)
    ensures Bracketed(start, open, terms, |terms|)
         == start + (if terms == [] then "" else open + Join("or ", terms) + ") ")
  {
    if terms != [] {
      BracketedIsJoin(start, open, terms, |terms|);
      assert terms[..|terms|] == terms;
    }
  }

  /** Both loops together write FileQuery. */
  lemma ClausesBracketed(ids: seq<string>, exts: seq<string>)
    ensures var parents := Bracketed("", "(", ParentTerms(ids), |ids|);
      && parents == ParentClause(ids)
      && Bracketed(parents, "and (", ExtensionTerms(exts), |exts|) == FileQuery(ids, exts)
  {
    var parents := Bracketed("", "(", ParentTerms(ids), |ids|);
    BracketedAll("", "(", ParentTerms(ids));
    BracketedAll(parents, "and (", ExtensionTerms(exts));
  }

  lemma FlattenPrefixStep<T>(xss: seq<seq<T>>, k: nat)
    requires k < |xss|
    ensures Flatten(xss[..k + 1]) == Flatten(xss[..k]) + xss[k]
  {
    assert xss[..k + 1] == xss[..k] + [xss[k]];
    FlattenSnoc(xss[..k], xss[k]);
  }

  // ---------------------------------------------------------------------------
  // Folder discovery

  datatype Discovery = Discovered(folders: seq<string>) | ListingFailed(error: DriveError) | TooDeep

  /** One pass of discovery: the ids it expanded and the ids the lookup returned. */
  datatype Pass = Pass(frontier: seq<string>, found: seq<string>)

  /**
   * Breadth-first expansion from position `index` of `ids`: one lookup per pass, for
   * exactly the ids appended by the previous pass, until a pass appends nothing. `fuel`
   * bounds the number of passes (TooDeep when it runs out).
   */
  function Expand(list: FolderLister, parent: string, ids: seq<string>, index: nat, fuel: nat): Discovery
    requires index <= |ids|
    decreases fuel
  {
    if index == |ids| then Discovered(ids)
    else if fuel == 0 then TooDeep
    else
      match list(parent, ChildQuery(ids[index..]))
      case Failure(e) => ListingFailed(e)
      case Success(found) => Expand(list, parent, ids + found, |ids|, fuel - 1)
  }

  /** The successful passes Expand makes. */
  function Passes(list: FolderLister, parent: string, ids: seq<string>, index: nat, fuel: nat): seq<Pass>
    requires index <= |ids|
    decreases fuel
  {
    if index == |ids| || fuel == 0 then []
    else
      match list(parent, ChildQuery(ids[index..]))
      case Failure(_) => []
      case Success(found) => [Pass(ids[index..], found)] + Passes(list, parent, ids + found, |ids|, fuel - 1)
  }

  function Frontiers(passes: seq<Pass>): seq<seq<string>> {
    seq(|passes|, k requires 0 <= k < |passes| => passes[k].frontier)
  }

  /** One pass of a discovery that completes: its lookup succeeds and the rest is a
      discovery from the ids it appended. */
  lemma ExpandUnfold(list: FolderLister, parent: string, ids: seq<string>, index: nat, fuel: nat)
    requires index < |ids|
    requires Expand(list, parent, ids, index, fuel).Discovered?
    ensures fuel > 0 && list(parent, ChildQuery(ids[index..])).Success?
    ensures var found := list(parent, ChildQuery(ids[index..])).value;
      && Expand(list, parent, ids, index, fuel) == Expand(list, parent, ids + found, |ids|, fuel - 1)
      && Passes(list, parent, ids, index, fuel)
         == [Pass(ids[index..], found)] + Passes(list, parent, ids + found, |ids|, fuel - 1)
  {
  }

  /** A completed discovery keeps the ids it started from at the front and makes at most
      `fuel` passes. */
  lemma {:induction false} ExpandKeeps(list: FolderLister, parent: string, ids: seq<string>, index: nat, fuel: nat)
    requires index <= |ids|
    requires Expand(list, parent, ids, index, fuel).Discovered?
    ensures ids <= Expand(list, parent, ids, index, fuel).folders
    ensures |Passes(list, parent, ids, index, fuel)| <= fuel
    decreases fuel
  {
    if index < |ids| {
      ExpandUnfold(list, parent, ids, index, fuel);
      var found := list(parent, ChildQuery(ids[index..])).value;
      ExpandKeeps(list, parent, ids + found, |ids|, fuel - 1);
    }
  }

  /**
   * What a completed discovery covers: the passes' frontiers, laid end to end, are exactly
   * the ids from `index` on, so every position is expanded once and in order.
   */
  lemma {:induction false} ExpandLayers(list: FolderLister, parent: string, ids: seq<string>, index: nat, fuel: nat)
    requires index <= |ids|
    requires Expand(list, parent, ids, index, fuel).Discovered?
    ensures var folders, passes := Expand(list, parent, ids, index, fuel).folders, Passes(list, parent, ids, index, fuel);
      && index <= |folders|
      && Flatten(Frontiers(passes)) == folders[index..]
      && (index < |ids| ==> passes != [] && passes[0].frontier == ids[index..])
    decreases fuel
  {
    ExpandKeeps(list, parent, ids, index, fuel);
    if index < |ids| {
      ExpandUnfold(list, parent, ids, index, fuel);
      var found := list(parent, ChildQuery(ids[index..])).value;
      var next := ids + found;
      ExpandLayers(list, parent, next, |ids|, fuel - 1);
      ExpandKeeps(list, parent, next, |ids|, fuel - 1);
      var folders := Expand(list, parent, ids, index, fuel).folders;
      var rest := Passes(list, parent, next, |ids|, fuel - 1);
      var passes := Passes(list, parent, ids, index, fuel);
      assert Frontiers(passes) == [ids[index..]] + Frontiers(rest);
      FlattenCons(ids[index..], Frontiers(rest));
      assert folders[index..] == ids[index..] + folders[|ids|..];
    }
  }

  /**
   * How the passes of a completed discovery chain: each expands what the previous one found,
   * with one lookup whose query is built from that non-empty frontier, and the last pass
   * finds nothing.
   */
  lemma {:induction false} PassesChain(list: FolderLister, parent: string, ids: seq<string>, index: nat, fuel: nat)
    requires index <= |ids|
    requires Expand(list, parent, ids, index, fuel).Discovered?
    ensures var passes := Passes(list, parent, ids, index, fuel);
      && (forall k :: 0 <= k < |passes| ==>
            passes[k].frontier != [] && list(parent, ChildQuery(passes[k].frontier)) == Success(passes[k].found))
      && (forall k :: 0 <= k < |passes| - 1 ==> passes[k + 1].frontier == passes[k].found)
      && (passes != [] ==> passes[|passes| - 1].found == [])
    decreases fuel
  {
    if index < |ids| {
      ExpandUnfold(list, parent, ids, index, fuel);
      var found := list(parent, ChildQuery(ids[index..])).value;
      var next := ids + found;
      PassesChain(list, parent, next, |ids|, fuel - 1);
      var rest := Passes(list, parent, next, |ids|, fuel - 1);
      var passes := Passes(list, parent, ids, index, fuel);
      assert found == [] <==> rest == [];
      assert rest != [] ==> rest[0].frontier == next[|ids|..] == found;
    }
  }

  /** A discovery from a single root lists the root first, its first pass reads the root
      alone, and the frontiers of its passes laid end to end are the whole discovery. */
  lemma DiscoveryFromRoot(list: FolderLister, parent: string, root: string, depth: nat)
    requires Expand(list, parent, [root], 0, depth).Discovered?
    ensures var folders := Expand(list, parent, [root], 0, depth).folders;
      && |folders| >= 1 && folders[0] == root
      && Flatten(Frontiers(Passes(list, parent, [root], 0, depth))) == folders
      && Passes(list, parent, [root], 0, depth)[0].frontier == [root]
  {
    ExpandKeeps(list, parent, [root], 0, depth);
    ExpandLayers(list, parent, [root], 0, depth);
  }

  // ---------------------------------------------------------------------------
  // Update record

  /** The marker that flags a file as renamed. */
  const ProcessedMarker := Property(FileProcessedFlag, "true", "PUBLIC")

  /** UpdateFile's request: the new name as title and exactly the processed marker. */
  function UpdateRequest(id: string, name: string): (u: FileUpdate)
    ensures u.fileId == id && u.title == name
    ensures |u.properties| == 1
    ensures u.properties[0].key == "file-renamer-processed"
    ensures u.properties[0].value == "true" && u.properties[0].visibility == "PUBLIC"
  {
    FileUpdate(id, name, [ProcessedMarker])
  }

  /** The Drive query text that selects files carrying property `p`. */
  function PropertyFilter(p: Property): string {
    "properties has {key='" + p.key + "' and value='" + p.value + "' and visibility='" + p.visibility + "'}"
  }

  /** The marker an update writes is exactly the one the enumeration excludes and the
      processed-set query selects. */
  lemma UpdateMarksWhatQueriesTest(id: string, name: string)
    ensures PropertyFilter(UpdateRequest(id, name).properties[0]) == ProcessedQuery
  {
  }

  // ---------------------------------------------------------------------------
  // The retriever

  function Items(listing: Listing): seq<DriveFile> {
    Flatten(listing.pages)
  }

  function Titles(items: seq<DriveFile>): set<string> {
    set i | 0 <= i < |items| :: items[i].title
  }

  lemma TitlesSnoc(items: seq<DriveFile>, x: DriveFile)
    ensures Titles(items + [x]) == Titles(items) + {x.title}
  {
    var all := items + [x];
    forall t | t in Titles(all) ensures t in Titles(items) + {x.title} {
      var i :| 0 <= i < |all| && all[i].title == t;
      if i < |items| {
        assert items[i] == all[i];
      }
    }
    forall t | t in Titles(items) ensures t in Titles(all) {
      var i :| 0 <= i < |items| && items[i].title == t;
      assert all[i] == items[i];
    }
    assert all[|items|] == x;
  }

  /** `files` are the records built from `items`, one per item, in order. */
  ghost predicate Mirrors(files: seq<RenameInfo>, items: seq<DriveFile>)
    reads files
  {
    && |files| == |items|
    && forall i :: 0 <= i < |files| ==>
         files[i].id == items[i].id && files[i].name == items[i].title && files[i].createdDate == items[i].createdDate
  }

  lemma MirrorsSnoc(files: seq<RenameInfo>, items: seq<DriveFile>, info: RenameInfo, v: DriveFile)
    requires Mirrors(files, items)
    requires info.id == v.id && info.name == v.title && info.createdDate == v.createdDate
    ensures Mirrors(files + [info], items + [v])
  {
  }

  /** The page callback of getFilesFromFolders: one new record per item, appended in order. */
  method CollectPage(files: seq<RenameInfo>, ghost seen: seq<DriveFile>, page: seq<DriveFile>)
    returns (result: seq<RenameInfo>)
    requires Mirrors(files, seen) && Distinct(files)
    ensures Mirrors(result, seen + page) && Distinct(result)
    ensures result[..|files|] == files
    ensures forall i :: |files| <= i < |result| ==> fresh(result[i])
  {
    result := files;
    var j := 0;
    while j < |page|
      invariant 0 <= j <= |page|
      invariant Mirrors(result, seen + page[..j]) && Distinct(result)
      invariant result[..|files|] == files
      invariant forall i :: |files| <= i < |result| ==> fresh(result[i])
    {
      var v := page[j];
      var info := new RenameInfo(v.id, v.title, v.createdDate);
      MirrorsSnoc(result, seen + page[..j], info, v);
      assert seen + page[..j + 1] == (seen + page[..j]) + [v];
      result := result + [info];
      j := j + 1;
    }
    assert page[..j] == page;
  }

  /** The page callback of GetProcessedFiles: every title on the page is marked in use. */
  method MarkPage(processed: map<string, bool>, ghost seen: seq<DriveFile>, page: seq<DriveFile>)
    returns (result: map<string, bool>)
    requires processed.Keys == Titles(seen) && forall t :: t in processed ==> processed[t]
    ensures result.Keys == Titles(seen + page) && forall t :: t in result ==> result[t]
  {
    result := processed;
    var j := 0;
    assert seen + page[..j] == seen;
    while j < |page|
      invariant 0 <= j <= |page|
      invariant result.Keys == Titles(seen + page[..j])
      invariant forall t :: t in result ==> result[t]
    {
      assert seen + page[..j + 1] == (seen + page[..j]) + [page[j]];
      TitlesSnoc(seen + page[..j], page[j]);
      result := result[page[j].title := true];
      j := j + 1;
    }
    assert page[..j] == page;
  }

  /**
   * GetProcessedFiles as the source writes it: the map is declared but never allocated, so
   * storing the first marked title panics (None); only a listing with no marked file returns,
   * with the unallocated map, which reads as empty.
   */
  method ProcessedFilesAsWritten(listing: Listing) returns (r: Option<map<string, bool>>)
    ensures r.Some? <==> Items(listing) == []
    ensures r.Some? ==> r.value == map[]
  {
    var k := 0;
    while k < |listing.pages|
      invariant 0 <= k <= |listing.pages|
      invariant Flatten(listing.pages[..k]) == []
    {
      if |listing.pages[k]| > 0 {
        FlattenPrefixStep(listing.pages, k);
        FlattenEmptyPrefix(listing.pages, k + 1);
        return None;
      }
      FlattenPrefixStep(listing.pages, k);
      k := k + 1;
    }
    assert listing.pages[..k] == listing.pages;
    return Some(map[]);
  }

  /** Flatten of a sequence is empty when that of any longer prefix is. */
  lemma {:induction false} FlattenEmptyPrefix<T>(xss: seq<seq<T>>, k: nat)
    requires k <= |xss| && Flatten(xss[..k]) != []
    ensures Flatten(xss) != []
    decreases |xss| - k
  {
    if k < |xss| {
      FlattenPrefixStep(xss, k);
      FlattenEmptyPrefix(xss, k + 1);
    } else {
      assert xss[..k] == xss;
    }
  }

  /** The discrepancy on a listing of one marked file: the source panics where the intended
      set of names in use holds that file's title. */
  lemma ProcessedFilesFinding(f: DriveFile)
    ensures Items(Listing([[f]], None)) == [f]
    ensures Titles(Items(Listing([[f]], None))) == {f.title}
  {
    FlattenSnoc([], [f]);
    assert [] + [[f]] == [[f]];
    assert Titles([f]) == {f.title} by {
      TitlesSnoc([], f);
    }
  }

  class FileRetriever {
    const config: Config
    /** The folders found by the last successful GetFileInfo, reused to scope the processed set. */
    var queryableFolders: seq<string>

    constructor (config: Config)
      ensures this.config == config && queryableFolders == []
    {
      this.config := config;
      queryableFolders := [];
    }

    /** buildFileQuery: both loops of the source, proved to render FileQuery. */
    method BuildFileQuery(folderIds: seq<string>) returns (query: string)
      ensures query == FileQuery(folderIds, config.fileExtensions)
    {
      query := "";
      ghost var terms := ParentTerms(folderIds);
      var i := 0;
      while i < |folderIds|
        invariant 0 <= i <= |folderIds|
        invariant query == Bracketed("", "(", terms, i)
      {
        if i == 0 {
          query := query + "(";
        } else {
          query := query + "or ";
        }
        query := query + InParents(folderIds[i]);
        if i == |folderIds| - 1 {
          query := query + ") ";
        }
        i := i + 1;
      }
      ghost var parents := query;
      var exts := config.fileExtensions;
      ghost var extTerms := ExtensionTerms(exts);
      var j := 0;
      while j < |exts|
        invariant 0 <= j <= |exts|
        invariant query == Bracketed(parents, "and (", extTerms, j)
      {
        if j == 0 {
          query := query + "and (";
        } else {
          query := query + "or ";
        }
        query := query + TitleContains(exts[j]);
        if j == |exts| - 1 {
          query := query + ") ";
        }
        j := j + 1;
      }
      ClausesBracketed(folderIds, exts);
    }

    /**
     * getSubFolders: breadth-first discovery of the subtree under `parentFolder`. The
     * `depth` bound exists only in the specification: the remote tree must be at most that
     * many layers deep, since the source keeps looping while lookups return new ids.
     */
    method GetSubFolders(parentFolder: string, list: FolderLister, ghost depth: nat) returns (r: Result<seq<string>, DriveError>)
      requires !Expand(list, config.parentDirId, [parentFolder], 0, depth).TooDeep?
      ensures var d := Expand(list, config.parentDirId, [parentFolder], 0, depth);
        && (d.Discovered? ==> r == Success(d.folders))
        && (d.ListingFailed? ==> r == Failure(d.error))
      ensures r.Success? ==> |r.value| >= 1 && r.value[0] == parentFolder
    {
      var folderIds := [parentFolder];
      var folderIndex := 0;
      ghost var fuel: nat := depth;
      while |folderIds| != folderIndex
        invariant 0 <= folderIndex <= |folderIds|
        invariant |folderIds| >= 1 && folderIds[0] == parentFolder
        invariant Expand(list, config.parentDirId, folderIds, folderIndex, fuel)
               == Expand(list, config.parentDirId, [parentFolder], 0, depth)
        decreases fuel
      {
        var query := BuildChildQuery(folderIds[folderIndex..]);
        var lookup := list(config.parentDirId, query);
        folderIndex := |folderIds|;
        if lookup.Failure? {
          return Failure(lookup.error);
        }
        folderIds := folderIds + lookup.value;
        fuel := fuel - 1;
      }
      return Success(folderIds);
    }

    /**
     * getFilesFromFolders: one RenameInfo per listed file, in page order. A failed page
     * is only logged: the files collected before it are returned with no error.
     */
    method GetFilesFromFolders(folderIds: seq<string>, list: FileLister) returns (files: seq<RenameInfo>, err: Option<DriveError>)
      ensures err == None
      ensures Mirrors(files, Items(list(EnumerationQuery(folderIds, config.fileExtensions))))
      ensures Distinct(files) && forall i :: 0 <= i < |files| ==> fresh(files[i])
    {
      var query := BuildFileQuery(folderIds);
      query := query + "and not (" + ProcessedQuery + ")";
      var listing := list(query);
      files := [];
      ghost var seen: seq<DriveFile> := [];
      var k := 0;
      while k < |listing.pages|
        invariant 0 <= k <= |listing.pages|
        invariant seen == Flatten(listing.pages[..k])
        invariant Mirrors(files, seen)
        invariant Distinct(files) && forall i :: 0 <= i < |files| ==> fresh(files[i])
      {
        files := CollectPage(files, seen, listing.pages[k]);
        seen := seen + listing.pages[k];
        FlattenPrefixStep(listing.pages, k);
        k := k + 1;
      }
      assert listing.pages[..k] == listing.pages;
      return files, None;
    }

    /**
     * GetFileInfo: discover the folders (a failed lookup is returned as the error and
     * nothing else happens), remember them for the processed-set query, then enumerate.
     */
    method GetFileInfo(folders: FolderLister, list: FileLister, ghost depth: nat)
      returns (files: seq<RenameInfo>, err: Option<DriveError>)
      requires !Expand(folders, config.parentDirId, [config.parentDirId], 0, depth).TooDeep?
      modifies this
      ensures var d := Expand(folders, config.parentDirId, [config.parentDirId], 0, depth);
        && (d.ListingFailed? ==>
              err == Some(d.error) && files == [] && queryableFolders == old(queryableFolders))
        && (d.Discovered? ==>
              && err == None && queryableFolders == d.folders
              && Mirrors(files, Items(list(EnumerationQuery(d.folders, config.fileExtensions)))))
      ensures Distinct(files) && forall i :: 0 <= i < |files| ==> fresh(files[i])
    {
      var found := GetSubFolders(config.parentDirId, folders, depth);
      if found.Failure? {
        return [], Some(found.error);
      }
      queryableFolders := found.value;
      files, err := GetFilesFromFolders(found.value, list);
    }

    /**
     * GetProcessedFiles: the titles of the marked files in the folders kept by the last
     * GetFileInfo, each mapped to true. A failed page is only logged; the titles read
     * before it are kept.
     */
    method GetProcessedFiles(list: FileLister) returns (processed: map<string, bool>)
      ensures var items := Items(list(ProcessedFilesQuery(queryableFolders, config.fileExtensions)));
        processed.Keys == Titles(items) && forall t :: t in processed ==> processed[t]
    {
      processed := map[];
      var query := BuildFileQuery(queryableFolders);
      query := query + "and " + ProcessedQuery;
      var listing := list(query);
      ghost var seen: seq<DriveFile> := [];
      var k := 0;
      while k < |listing.pages|
        invariant 0 <= k <= |listing.pages|
        invariant seen == Flatten(listing.pages[..k])
        invariant processed.Keys == Titles(seen)
        invariant forall t :: t in processed ==> processed[t]
      {
        processed := MarkPage(processed, seen, listing.pages[k]);
        seen := seen + listing.pages[k];
        FlattenPrefixStep(listing.pages, k);
        k := k + 1;
      }
      assert listing.pages[..k] == listing.pages;
    }
  }
}
