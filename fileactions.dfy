/**
 * The rename process: for every candidate file, a new name made of the configured
 * keywords the old name mentions, the creation date as YYYY_MMDD, the lowest counter that
 * does not collide with a name already in use, and the old extension; then the update
 * request that writes it and marks the file as processed.
 */
module FileActions {
  import opened Wrappers
  import opened Text
  import opened Rfc3339
  import opened Configuration
  import opened FileRetriever

  // ---------------------------------------------------------------------------
  // The parts of a new name

  /** The old name's extension: from its last "." to the end, or nothing without a ".". */
  function Extension(name: string): (suffix: string)
    ensures |suffix| <= |name| && name == name[..|name| - |suffix|] + suffix
    ensures suffix == [] <==> '.' !in name
    ensures suffix != [] ==> suffix[0] == '.' && '.' !in suffix[1..]
  {
    var i := LastIndexOf(name, '.');
    if i == -1 then "" else name[i..]
  }

  /** A keyword is kept when the old name contains it, ignoring case. */
  predicate Matches(name: string, word: string) {
    Contains(ToLower(name), ToLower(word))
  }

  /** Each kept keyword followed by the delimiter, in configuration order. */
  function KeywordPrefix(name: string, words: seq<string>, delimiter: string): string {
    if words == [] then ""
    else
      var last := words[|words| - 1];
      KeywordPrefix(name, words[..|words| - 1], delimiter) + (if Matches(name, last) then last + delimiter else "")
  }

  /** The configured keywords the old name mentions, in configuration order. */
  function Kept(name: string, words: seq<string>): (kept: seq<string>)
    ensures |kept| <= |words|
    ensures forall w :: w in kept <==> w in words && Matches(name, w)
  {
    if words == [] then []
    else
      var last := words[|words| - 1];
      Kept(name, words[..|words| - 1]) + (if Matches(name, last) then [last] else [])
  }

  /** Each word followed by the delimiter, in the order given. */
  function Concat(words: seq<string>, delimiter: string): string {
    if words == [] then "" else Concat(words[..|words| - 1], delimiter) + (words[|words| - 1] + delimiter)
  }

  /** Time.Format with the layout "2006_0102". */
  function FormatDate(d: Date): string {
    FixedDigits(d.year, 4) + "_" + FixedDigits(d.month, 2) + FixedDigits(d.day, 2)
  }

  /** parseRFC3339: the creation date as YYYY_MMDD, copied from the digits the timestamp
      spells, or the parse error. */
  function ParseRfc3339(date: string): (r: Result<string, ParseError>)
    ensures r.Success? <==> IsDateTime(date)
    ensures r.Success? ==> r.value == date[0..4] + "_" + date[5..7] + date[8..10]
    ensures r.Failure? ==> r.error == ParseError(date)
  {
    match Parse(date)
    case Failure(e) => Failure(e)
    case Success(d) =>
      ParsedFieldsAsWritten(date);
      Success(FormatDate(d))
  }

  /** Everything before the counter: the kept keywords, then the date and the delimiter. */
  function Stem(config: Config, name: string, date: string): string {
    KeywordPrefix(name, config.persistentWords, config.nameDelimiter) + date + config.nameDelimiter
  }

  /** fmt.Sprintf("%s%d%s", stem, n, ext). */
  function Candidate(stem: string, n: nat, ext: string): string {
    stem + NatToString(n) + ext
  }

  /** A missing key reads as false. */
  predicate Taken(processed: map<string, bool>, name: string) {
    name in processed && processed[name]
  }

  function TrueKeys(processed: map<string, bool>): set<string> {
    set k | k in processed && processed[k]
  }

  function Candidates(stem: string, ext: string, n: nat): set<string> {
    set i | 0 <= i < n :: Candidate(stem, i, ext)
  }

  lemma CandidateInjective(stem: string, ext: string, a: nat, b: nat)
    requires Candidate(stem, a, ext) == Candidate(stem, b, ext)
    ensures a == b
  {
    var ca, cb := Candidate(stem, a, ext), Candidate(stem, b, ext);
    assert |NatToString(a)| == |NatToString(b)|;
    assert NatToString(a) == ca[|stem|..|ca| - |ext|];
    assert NatToString(b) == cb[|stem|..|cb| - |ext|];
    NatToStringInjective(a, b);
  }

  /** The first n candidates are n different names. */
  lemma {:induction false} CandidatesCount(stem: string, ext: string, n: nat)
    ensures |Candidates(stem, ext, n)| == n
  {
    if n > 0 {
      var last := Candidate(stem, n - 1, ext);
      assert Candidates(stem, ext, n) == Candidates(stem, ext, n - 1) + {last};
      if last in Candidates(stem, ext, n - 1) {
        var i :| 0 <= i < n - 1 && Candidate(stem, i, ext) == last;
        CandidateInjective(stem, ext, i, n - 1);
      }
      CandidatesCount(stem, ext, n - 1);
    }
  }

  /** If the first n candidates are all taken, the map holds at least n names set to true:
      the counter search cannot run past the size of the map. */
  lemma CandidatesBound(processed: map<string, bool>, stem: string, ext: string, n: nat)
    requires forall i :: 0 <= i < n ==> Taken(processed, Candidate(stem, i, ext))
    ensures n <= |TrueKeys(processed)|
  {
    var taken := TrueKeys(processed);
    var first := Candidates(stem, ext, n);
    assert first <= taken;
    CandidatesCount(stem, ext, n);
    assert taken == first + (taken - first);
  }

  /** The lowest counter from n on whose candidate is free, given that all below n are taken. */
  function FreeCounterFrom(processed: map<string, bool>, stem: string, ext: string, n: nat): (r: nat)
    requires forall i :: 0 <= i < n ==> Taken(processed, Candidate(stem, i, ext))
    ensures n <= r <= |TrueKeys(processed)|
    ensures !Taken(processed, Candidate(stem, r, ext))
    ensures forall i :: 0 <= i < r ==> Taken(processed, Candidate(stem, i, ext))
    decreases |TrueKeys(processed)| - n
  {
    CandidatesBound(processed, stem, ext, n);
    if !Taken(processed, Candidate(stem, n, ext)) then n
    else
      CandidatesBound(processed, stem, ext, n + 1);
      FreeCounterFrom(processed, stem, ext, n + 1)
  }

  /** Only one counter is free with every lower one taken. */
  lemma LowestFreeUnique(processed: map<string, bool>, stem: string, ext: string, a: nat, b: nat)
    requires !Taken(processed, Candidate(stem, a, ext)) && !Taken(processed, Candidate(stem, b, ext))
    requires forall i :: 0 <= i < a ==> Taken(processed, Candidate(stem, i, ext))
    requires forall i :: 0 <= i < b ==> Taken(processed, Candidate(stem, i, ext))
    ensures a == b
  {
  }

  function FreeCounter(processed: map<string, bool>, stem: string, ext: string): nat {
    FreeCounterFrom(processed, stem, ext, 0)
  }

  /** generateNewName as a function of the configuration, the names in use, the old name and
      the creation timestamp. */
  function NewName(config: Config, processed: map<string, bool>, name: string, createdDate: string): (r: Result<string, ParseError>)
    ensures r.Success? <==> IsDateTime(createdDate)
    ensures r.Failure? ==> r.error == ParseError(createdDate)
    ensures r.Success? ==> !Taken(processed, r.value)
  {
    match ParseRfc3339(createdDate)
    case Failure(e) => Failure(e)
    case Success(date) =>
      var stem, ext := Stem(config, name, date), Extension(name);
      Success(Candidate(stem, FreeCounter(processed, stem, ext), ext))
  }

  // ---------------------------------------------------------------------------
  // Properties of a new name

  /** A new name is the stem, the lowest free counter and the old extension: no lower counter
      was free, so names fill the gaps left by deletions before growing. */
  lemma NewNameIsLowestFree(config: Config, processed: map<string, bool>, name: string, createdDate: string)
    requires NewName(config, processed, name, createdDate).Success?
    ensures var date := createdDate[0..4] + "_" + createdDate[5..7] + createdDate[8..10];
      var stem, ext := Stem(config, name, date), Extension(name);
      exists n: nat ::
        && NewName(config, processed, name, createdDate).value == Candidate(stem, n, ext)
        && n <= |TrueKeys(processed)|
        && forall i :: 0 <= i < n ==> Taken(processed, Candidate(stem, i, ext))
  {
    var date := createdDate[0..4] + "_" + createdDate[5..7] + createdDate[8..10];
    var stem, ext := Stem(config, name, date), Extension(name);
    var n := FreeCounter(processed, stem, ext);
    assert NewName(config, processed, name, createdDate).value == Candidate(stem, n, ext);
  }

  /** A new name keeps the old extension, after at least one digit of counter. */
  lemma NewNameKeepsExtension(config: Config, processed: map<string, bool>, name: string, createdDate: string)
    requires NewName(config, processed, name, createdDate).Success?
    ensures var r, ext := NewName(config, processed, name, createdDate).value, Extension(name);
      |ext| < |r| && r[|r| - |ext|..] == ext
  {
    var date := ParseRfc3339(createdDate).value;
    var stem, ext := Stem(config, name, date), Extension(name);
    var counter := NatToString(FreeCounter(processed, stem, ext));
    assert (stem + counter + ext)[|stem + counter|..] == ext;
  }

  /** Keyword matching ignores case: names that agree up to case keep the same keywords. */
  lemma {:induction false} KeywordPrefixIgnoresCase(a: string, b: string, words: seq<string>, delimiter: string)
    requires ToLower(a) == ToLower(b)
    ensures KeywordPrefix(a, words, delimiter) == KeywordPrefix(b, words, delimiter)
  {
    if words != [] {
      KeywordPrefixIgnoresCase(a, b, words[..|words| - 1], delimiter);
    }
  }

  /** Without a matching keyword the new name starts with the date. */
  lemma {:induction false} KeywordPrefixNoMatch(name: string, words: seq<string>, delimiter: string)
    requires forall i :: 0 <= i < |words| ==> !Matches(name, words[i])
    ensures KeywordPrefix(name, words, delimiter) == ""
  {
    if words != [] {
      KeywordPrefixNoMatch(name, words[..|words| - 1], delimiter);
    }
  }

  /** The prefix is the kept keywords, each followed by the delimiter, in configuration
      order: the order of the configuration wins over the order in the old name. */
  lemma {:induction false} KeywordPrefixIsKeptWords(name: string, words: seq<string>, delimiter: string)
    ensures KeywordPrefix(name, words, delimiter) == Concat(Kept(name, words), delimiter)
  {
    if words != [] {
      var init, last := words[..|words| - 1], words[|words| - 1];
      KeywordPrefixIsKeptWords(name, init, delimiter);
      if Matches(name, last) {
        var kept := Kept(name, init) + [last];
        assert kept[..|kept| - 1] == Kept(name, init);
      } else {
        assert Kept(name, words) == Kept(name, init);
      }
    }
  }

  /** With every keyword matching, all of them are kept, each followed by the delimiter. */
  lemma {:induction false} KeywordPrefixAllMatch(name: string, words: seq<string>, delimiter: string)
    requires forall i :: 0 <= i < |words| ==> Matches(name, words[i])
    ensures KeywordPrefix(name, words, delimiter) == Concat(words, delimiter)
    ensures |KeywordPrefix(name, words, delimiter)| == |words| * |delimiter| + SumOfLengths(words)
  {
    if words != [] {
      var init, last := words[..|words| - 1], words[|words| - 1];
      assert forall i :: 0 <= i < |init| ==> init[i] == words[i];
      KeywordPrefixAllMatch(name, init, delimiter);
      assert Matches(name, last);
    }
    ConcatLength(words, delimiter);
  }

  /** Each word and one delimiter per word. */
  lemma {:induction false} ConcatLength(words: seq<string>, delimiter: string)
    ensures |Concat(words, delimiter)| == |words| * |delimiter| + SumOfLengths(words)
  {
    if words != [] {
      var n := |words| - 1;
      ConcatLength(words[..n], delimiter);
      assert |words| * |delimiter| == n * |delimiter| + |delimiter|;
    }
  }

  function SumOfLengths(words: seq<string>): nat {
    if words == [] then 0 else SumOfLengths(words[..|words| - 1]) + |words[|words| - 1]|
  }

  // ---------------------------------------------------------------------------
  // A whole run as a function

  /** A candidate's old name and creation timestamp. */
  datatype Entry = Entry(name: string, createdDate: string)

  /** After a run: the name each file ends with ("" where generation failed) and the map of
      names in use. */
  datatype Outcome = Outcome(names: seq<string>, processed: map<string, bool>)

  /** A name generator: the names in use and a file to the file's new name or an error. */
  type Namer = (map<string, bool>, Entry) -> Result<string, ParseError>

  /** generateNewName under a fixed configuration. */
  function Generator(config: Config): Namer {
    (processed: map<string, bool>, e: Entry) => NewName(config, processed, e.name, e.createdDate)
  }

  lemma GeneratorApplies(config: Config, processed: map<string, bool>, e: Entry)
    ensures Generator(config)(processed, e) == NewName(config, processed, e.name, e.createdDate)
  {
  }

  /** The loop of Run over `entries`, starting from the loaded names: a file whose name cannot
      be generated ends with "", any other gets its new name, which is then marked in use. */
  function Batch(generate: Namer, loaded: map<string, bool>, entries: seq<Entry>): (out: Outcome)
    ensures |out.names| == |entries|
  {
    if entries == [] then Outcome([], loaded)
    else
      var prev := Batch(generate, loaded, entries[..|entries| - 1]);
      match generate(prev.processed, entries[|entries| - 1])
      case Failure(_) => Outcome(prev.names + [""], prev.processed)
      case Success(n) => Outcome(prev.names + [n], prev.processed[n := true])
  }

  /** What the loop relies on from the generator: it refuses exactly the `refused` files,
      whatever the names in use, and otherwise returns a non-empty name not in use. */
  ghost predicate ProperNamer(generate: Namer, refused: Entry -> bool) {
    forall processed: map<string, bool>, e: Entry {:trigger generate(processed, e)} ::
      && (generate(processed, e).Failure? <==> refused(e))
      && (generate(processed, e).Success? ==>
            generate(processed, e).value != "" && !Taken(processed, generate(processed, e).value))
  }

  /** A file whose creation timestamp is not RFC 3339. */
  predicate BadTimestamp(e: Entry) {
    !IsDateTime(e.createdDate)
  }

  /** The generator refuses exactly the files whose timestamp is not RFC 3339. */
  lemma GeneratorIsProper(config: Config)
    ensures ProperNamer(Generator(config), BadTimestamp)
  {
    forall processed: map<string, bool>, e: Entry | NewName(config, processed, e.name, e.createdDate).Success?
      ensures NewName(config, processed, e.name, e.createdDate).value != ""
    {
      NewNameKeepsExtension(config, processed, e.name, e.createdDate);
    }
  }

  /** One more file: the names so far are kept and the last file's outcome is appended. */
  lemma BatchStep(generate: Namer, loaded: map<string, bool>, entries: seq<Entry>)
    requires entries != []
    ensures var n := |entries| - 1;
      var prev, out := Batch(generate, loaded, entries[..n]), Batch(generate, loaded, entries);
      var r := generate(prev.processed, entries[n]);
      && out.names == prev.names + [out.names[n]]
      && (r.Failure? ==> out.names[n] == "" && out.processed == prev.processed)
      && (r.Success? ==> out.names[n] == r.value && out.processed == prev.processed[r.value := true])
  {
  }

  /** Batch over one more entry of a fixed list. */
  lemma BatchPrefixStep(generate: Namer, loaded: map<string, bool>, entries: seq<Entry>, i: nat)
    requires i < |entries|
    ensures var prev, next := Batch(generate, loaded, entries[..i]), Batch(generate, loaded, entries[..i + 1]);
      var r := generate(prev.processed, entries[i]);
      && next.names == prev.names + [if r.Success? then r.value else ""]
      && next.processed == (if r.Success? then prev.processed[r.value := true] else prev.processed)
  {
    assert entries[..i + 1][..i] == entries[..i];
  }

  /** "" marks exactly the refused files. */
  lemma {:induction false} BatchEmptiesRefused(generate: Namer, refused: Entry -> bool, loaded: map<string, bool>, entries: seq<Entry>)
    requires ProperNamer(generate, refused)
    ensures var out := Batch(generate, loaded, entries);
      forall i :: 0 <= i < |entries| ==> (out.names[i] == "" <==> refused(entries[i]))
  {
    if entries != [] {
      var n := |entries| - 1;
      BatchEmptiesRefused(generate, refused, loaded, entries[..n]);
      BatchStep(generate, loaded, entries);
      var prev, out := Batch(generate, loaded, entries[..n]), Batch(generate, loaded, entries);
      assert generate(prev.processed, entries[n]).Failure? <==> refused(entries[n]);
      forall i | 0 <= i < n
        ensures out.names[i] == prev.names[i] && entries[i] == entries[..n][i]
      {
      }
    }
  }

  /** The final map marks every new name and keeps every other entry exactly as loaded. */
  lemma {:induction false} BatchMarksNewNames(generate: Namer, loaded: map<string, bool>, entries: seq<Entry>)
    ensures var out := Batch(generate, loaded, entries);
      && (forall i :: 0 <= i < |entries| && out.names[i] != "" ==> Taken(out.processed, out.names[i]))
      && (forall k :: k !in out.names ==> (k in out.processed <==> k in loaded))
      && (forall k :: k !in out.names && k in loaded ==> out.processed[k] == loaded[k])
  {
    if entries != [] {
      var n := |entries| - 1;
      BatchMarksNewNames(generate, loaded, entries[..n]);
      BatchStep(generate, loaded, entries);
    }
  }

  /** Every new name was free in the loaded map, and no two files get the same new name. */
  lemma {:induction false} BatchNamesUnique(generate: Namer, refused: Entry -> bool, loaded: map<string, bool>, entries: seq<Entry>)
    requires ProperNamer(generate, refused)
    ensures var out := Batch(generate, loaded, entries);
      && (forall i :: 0 <= i < |entries| && out.names[i] != "" ==> !Taken(loaded, out.names[i]))
      && (forall i, j :: 0 <= i < j < |entries| && out.names[i] != "" ==> out.names[i] != out.names[j])
  {
    if entries != [] {
      var n := |entries| - 1;
      var prev := Batch(generate, loaded, entries[..n]);
      BatchNamesUnique(generate, refused, loaded, entries[..n]);
      BatchMarksNewNames(generate, loaded, entries[..n]);
      BatchStep(generate, loaded, entries);
      var r := generate(prev.processed, entries[n]);
      if r.Success? {
        assert !Taken(prev.processed, r.value);
        forall i | 0 <= i < n && prev.names[i] != ""
          ensures prev.names[i] != r.value
        {
          assert Taken(prev.processed, prev.names[i]);
        }
      }
    }
  }

  /**
   * What a run promises: a file's name is emptied exactly when its timestamp is not RFC 3339;
   * every new name was free in the loaded map and differs from every other new name; the
   * final map marks every new name and keeps every other entry as loaded.
   */
  lemma RunOutcome(config: Config, loaded: map<string, bool>, entries: seq<Entry>)
    ensures var out := Batch(Generator(config), loaded, entries);
      && (forall i :: 0 <= i < |entries| ==> (out.names[i] == "" <==> !IsDateTime(entries[i].createdDate)))
      && (forall i :: 0 <= i < |entries| && out.names[i] != "" ==> !Taken(loaded, out.names[i]))
      && (forall i, j :: 0 <= i < j < |entries| && out.names[i] != "" ==> out.names[i] != out.names[j])
      && (forall i :: 0 <= i < |entries| && out.names[i] != "" ==> Taken(out.processed, out.names[i]))
      && (forall k :: k !in out.names ==> (k in out.processed <==> k in loaded))
      && (forall k :: k !in out.names && k in loaded ==> out.processed[k] == loaded[k])
  {
    var refused := BadTimestamp;
    GeneratorIsProper(config);
    BatchEmptiesRefused(Generator(config), refused, loaded, entries);
    BatchMarksNewNames(Generator(config), loaded, entries);
    BatchNamesUnique(Generator(config), refused, loaded, entries);
  }

  // ---------------------------------------------------------------------------
  // The process

  /** The update request for each renamed file, in order; files whose name generation failed
      get none. */
  function Requests(ids: seq<string>, names: seq<string>): (rs: seq<FileUpdate>)
    requires |ids| == |names|
    ensures |rs| <= |ids|
  {
    if ids == [] then []
    else
      var n := |ids| - 1;
      Requests(ids[..n], names[..n]) + (if names[n] == "" then [] else [UpdateRequest(ids[n], names[n])])
  }

  /** The ids of the requests the update call rejected, in order. */
  function Rejected(requests: seq<FileUpdate>, update: FileUpdate -> Option<DriveError>): seq<string> {
    if requests == [] then []
    else
      var n := |requests| - 1;
      Rejected(requests[..n], update) + (if update(requests[n]).Some? then [requests[n].fileId] else [])
  }

  lemma RequestsStep(ids: seq<string>, names: seq<string>, x: string, i: nat)
    requires i < |ids| && |names| == i
    ensures Requests(ids[..i + 1], names + [x])
         == Requests(ids[..i], names) + (if x == "" then [] else [UpdateRequest(ids[i], x)])
  {
    var ids', names' := ids[..i + 1], names + [x];
    assert |ids'| - 1 == i;
    assert ids'[..i] == ids[..i];
    assert names'[..i] == names;
  }

  lemma RejectedStep(requests: seq<FileUpdate>, r: FileUpdate, update: FileUpdate -> Option<DriveError>)
    ensures Rejected(requests + [r], update)
         == Rejected(requests, update) + (if update(r).Some? then [r.fileId] else [])
  {
    assert (requests + [r])[..|requests|] == requests;
  }

  /** The requests and rejections of one more file, as the loop of Run extends them. */
  lemma LedgerStep(ids: seq<string>, names: seq<string>, i: nat, requests: seq<FileUpdate>,
                   update: FileUpdate -> Option<DriveError>, name: string, request: Option<FileUpdate>)
    requires i < |ids| && |names| == i
    requires requests == Requests(ids[..i], names)
    requires request.Some? <==> name != ""
    requires request.Some? ==> request.value == UpdateRequest(ids[i], name)
    ensures var extended := requests + (if request.Some? then [request.value] else []);
      && extended == Requests(ids[..i + 1], names + [name])
      && Rejected(extended, update)
         == Rejected(requests, update) + (if request.Some? && update(request.value).Some? then [ids[i]] else [])
  {
    RequestsStep(ids, names, name, i);
    if request.Some? {
      RejectedStep(requests, request.value, update);
    } else {
      assert requests + [] == requests;
    }
  }

  /** One file of Run's loop on values: the outcome, the requests and the rejections so far
      grow by that file's share. */
  lemma RunStep(generate: Namer, loaded: map<string, bool>, entries: seq<Entry>, ids: seq<string>, i: nat,
                names: seq<string>, requests: seq<FileUpdate>, update: FileUpdate -> Option<DriveError>,
                r: Result<string, ParseError>)
    requires i < |entries| == |ids|
    requires names == Batch(generate, loaded, entries[..i]).names
    requires requests == Requests(ids[..i], names)
    requires r == generate(Batch(generate, loaded, entries[..i]).processed, entries[i])
    requires r.Success? ==> r.value != ""
    ensures var prev, next := Batch(generate, loaded, entries[..i]), Batch(generate, loaded, entries[..i + 1]);
      var request := if r.Success? then Some(UpdateRequest(ids[i], r.value)) else None;
      var extended := requests + (if request.Some? then [request.value] else []);
      && next.names == names + [if r.Success? then r.value else ""]
      && next.processed == (if r.Success? then prev.processed[r.value := true] else prev.processed)
      && extended == Requests(ids[..i + 1], next.names)
      && Rejected(extended, update)
         == Rejected(requests, update) + (if request.Some? && update(request.value).Some? then [ids[i]] else [])
  {
    BatchPrefixStep(generate, loaded, entries, i);
    var name := if r.Success? then r.value else "";
    var request := if r.Success? then Some(UpdateRequest(ids[i], r.value)) else None;
    LedgerStep(ids, names, i, requests, update, name, request);
  }

  function Entries(files: seq<RenameInfo>): (es: seq<Entry>)
    reads files
    ensures |es| == |files|
  {
    seq(|files|, i reads files requires 0 <= i < |files| => Entry(files[i].name, files[i].createdDate))
  }

  function Ids(files: seq<RenameInfo>): (ids: seq<string>)
    ensures |ids| == |files|
  {
    seq(|files|, i requires 0 <= i < |files| => files[i].id)
  }

  function Names(files: seq<RenameInfo>): (ns: seq<string>)
    reads files
    ensures |ns| == |files|
  {
    seq(|files|, i reads files requires 0 <= i < |files| => files[i].name)
  }

  /** Overwriting the first element after a prefix extends the prefix. */
  lemma ReplaceNext(prefix: seq<string>, rest: seq<string>, x: string)
    requires |rest| > 0
    ensures (prefix + rest)[|prefix| := x] == prefix + [x] + rest[1..]
  {
  }

  function FilesOf(fetched: Result<seq<RenameInfo>, DriveError>): seq<RenameInfo> {
    if fetched.Success? then fetched.value else []
  }

  // ---------------------------------------------------------------------------
  // The scenarios of the package's tests

  /** A timestamp in RFC 3339 becomes YYYY_MMDD ... */
  lemma ParseRfc3339ValidExample(s: string)
    requires s == "2020-08-31T19:33:44.561Z"
    ensures ParseRfc3339(s) == Success("2020_0831")
  {
    ParseValidExample(s);
    FormatDateExample();
  }

  lemma FormatDateExample()
    ensures FormatDate(Date(2020, 8, 31)) == "2020_0831"
  {
    SharedTestFields();
    DayHourFields();
  }

  /** ... and one with a space for "T" and no offset is refused. */
  lemma ParseRfc3339InvalidExample(s: string)
    requires s == "2020-03-24 04:45:20"
    ensures ParseRfc3339(s) == Failure(ParseError(s))
  {
    ParseInvalidExample();
  }

  /** The configuration of the tests: keywords "foo" and "bar", delimiter "_". */
  const TestConfig := Config("", ["foo", "bar"], "_", [])

  /** "foofile1.mov" keeps "foo" but not "bar". */
  lemma FooFileKeywords(name: string)
    requires name == "foofile1.mov"
    ensures KeywordPrefix(name, TestConfig.persistentWords, "_") == "foo_"
  {
    assert ToLower(name) == name;
    assert ToLower("foo") == "foo" && ToLower("bar") == "bar";
    assert Matches(name, "foo") by {
      assert OccursAt(ToLower(name), "foo", 0);
    }
    assert !Matches(name, "bar") by {
      assert name[0..3] == "foo";
      assert 'b' !in name[1..];
      NotContains(ToLower(name), "bar");
    }
    assert ["foo", "bar"][..1] == ["foo"];
    assert ["foo"][..0] == [];
    assert KeywordPrefix(name, [], "_") == "";
    assert KeywordPrefix(name, ["foo"], "_") == "foo_";
  }

  /** ... and the extension ".mov". */
  lemma FooFileExtension(name: string)
    requires name == "foofile1.mov"
    ensures Extension(name) == ".mov"
  {
    assert name[..11][..10][..9][8] == '.';
    assert LastIndexOf(name, '.') == 8;
  }

  /** The first copy of "foofile1.mov" gets counter 0: no name of that stem is in use. */
  lemma FooFirstName(name: string, date: string)
    requires name == "foofile1.mov" && ParseRfc3339(date) == Success("2020_0831")
    ensures NewName(TestConfig, map["2020_0828_0.mov" := true], name, date) == Success("foo_2020_0831_0.mov")
  {
    FooFileKeywords(name);
    FooFileExtension(name);
    var loaded := map["2020_0828_0.mov" := true];
    var stem, ext := "foo_2020_0831_", ".mov";
    assert Stem(TestConfig, name, "2020_0831") == stem;
    var first := "foo_2020_0831_0.mov";
    assert Candidate(stem, 0, ext) == first;
    assert first != "2020_0828_0.mov" by { assert first[0] != "2020_0828_0.mov"[0]; }
    LowestFreeUnique(loaded, stem, ext, 0, FreeCounter(loaded, stem, ext));
  }

  /** The second copy gets counter 1: the first one's new name is now in use. */
  lemma FooSecondName(name: string, date: string)
    requires name == "foofile1.mov" && ParseRfc3339(date) == Success("2020_0831")
    ensures NewName(TestConfig, map["2020_0828_0.mov" := true, "foo_2020_0831_0.mov" := true], name, date)
         == Success("foo_2020_0831_1.mov")
  {
    FooFileKeywords(name);
    FooFileExtension(name);
    var grown := map["2020_0828_0.mov" := true, "foo_2020_0831_0.mov" := true];
    var stem, ext := "foo_2020_0831_", ".mov";
    assert Stem(TestConfig, name, "2020_0831") == stem;
    var first, second := "foo_2020_0831_0.mov", "foo_2020_0831_1.mov";
    assert Candidate(stem, 0, ext) == first;
    assert Candidate(stem, 1, ext) == second;
    assert second != "2020_0828_0.mov" by { assert second[0] != "2020_0828_0.mov"[0]; }
    assert second != first by { assert second[14] != first[14]; }
    LowestFreeUnique(grown, stem, ext, 1, FreeCounter(grown, stem, ext));
  }

  /** The test keywords, each followed by "_". */
  lemma TestWordsConcat()
    ensures Concat(TestConfig.persistentWords, "_") == "foo_bar_"
  {
    assert ["foo", "bar"][..1] == ["foo"];
    assert ["foo"][..0] == [];
  }

  /** "barfoo.mov" mentions "bar" first, yet the prefix follows the configuration: "foo_bar_". */
  lemma BarFooKeywords(name: string)
    requires name == "barfoo.mov"
    ensures KeywordPrefix(name, TestConfig.persistentWords, "_") == "foo_bar_"
  {
    assert ToLower(name) == name;
    assert ToLower("foo") == "foo" && ToLower("bar") == "bar";
    assert Matches(name, "foo") by {
      assert OccursAt(ToLower(name), "foo", 3);
    }
    assert Matches(name, "bar") by {
      assert OccursAt(ToLower(name), "bar", 0);
    }
    KeywordPrefixAllMatch(name, TestConfig.persistentWords, "_");
    TestWordsConcat();
  }

  /** "foobarfile2.mov" keeps both keywords ... */
  lemma FooBarKeywords(name: string)
    requires name == "foobarfile2.mov"
    ensures KeywordPrefix(name, TestConfig.persistentWords, "_") == "foo_bar_"
  {
    assert ToLower(name) == name;
    assert ToLower("foo") == "foo" && ToLower("bar") == "bar";
    assert Matches(name, "foo") by {
      assert OccursAt(ToLower(name), "foo", 0);
    }
    assert Matches(name, "bar") by {
      assert OccursAt(ToLower(name), "bar", 3);
    }
    KeywordPrefixAllMatch(name, TestConfig.persistentWords, "_");
    TestWordsConcat();
  }

  /** ... and the extension ".mov". */
  lemma FooBarExtension(name: string)
    requires name == "foobarfile2.mov"
    ensures Extension(name) == ".mov"
  {
    assert name[..14][..13][..12][11] == '.';
    assert LastIndexOf(name, '.') == 11;
  }

  /** "file3.mov" keeps neither keyword ... */
  lemma FileThreeKeywords(name: string)
    requires name == "file3.mov"
    ensures KeywordPrefix(name, TestConfig.persistentWords, "_") == ""
  {
    assert ToLower(name) == name;
    assert ToLower("foo") == "foo" && ToLower("bar") == "bar";
    assert !Matches(name, "foo") by {
      assert name[0..3] != "foo" by { assert name[1] != "foo"[1]; }
      assert 'f' !in name[1..];
      NotContains(ToLower(name), "foo");
    }
    assert !Matches(name, "bar") by {
      assert name[0..3] != "bar" by { assert name[0] != "bar"[0]; }
      assert 'b' !in name[1..];
      NotContains(ToLower(name), "bar");
    }
    KeywordPrefixNoMatch(name, TestConfig.persistentWords, "_");
  }

  /** ... and the extension ".mov". */
  lemma FileThreeExtension(name: string)
    requires name == "file3.mov"
    ensures Extension(name) == ".mov"
  {
    assert name[..8][..7][..6][5] == '.';
    assert LastIndexOf(name, '.') == 5;
  }

  /** "foobarfile2.mov" gets counter 0 when no name of its stem is in use. */
  lemma FooBarName(name: string, date: string, processed: map<string, bool>)
    requires name == "foobarfile2.mov" && ParseRfc3339(date) == Success("2020_0831")
    requires !Taken(processed, "foo_bar_2020_0831_0.mov")
    ensures NewName(TestConfig, processed, name, date) == Success("foo_bar_2020_0831_0.mov")
  {
    FooBarKeywords(name);
    FooBarExtension(name);
    var stem, ext := "foo_bar_2020_0831_", ".mov";
    assert Stem(TestConfig, name, "2020_0831") == stem;
    assert Candidate(stem, 0, ext) == "foo_bar_2020_0831_0.mov";
    LowestFreeUnique(processed, stem, ext, 0, FreeCounter(processed, stem, ext));
  }

  /** "file3.mov" gets counter 1 when "2020_0828_0.mov" is in use and "2020_0828_1.mov" is not. */
  lemma FileThreeName(name: string, date: string, processed: map<string, bool>)
    requires name == "file3.mov" && ParseRfc3339(date) == Success("2020_0828")
    requires Taken(processed, "2020_0828_0.mov") && !Taken(processed, "2020_0828_1.mov")
    ensures NewName(TestConfig, processed, name, date) == Success("2020_0828_1.mov")
  {
    FileThreeKeywords(name);
    FileThreeExtension(name);
    var stem, ext := "2020_0828_", ".mov";
    assert Stem(TestConfig, name, "2020_0828") == stem;
    assert Candidate(stem, 0, ext) == "2020_0828_0.mov";
    assert Candidate(stem, 1, ext) == "2020_0828_1.mov";
    LowestFreeUnique(processed, stem, ext, 1, FreeCounter(processed, stem, ext));
  }

  /** Batch over two files whose names the generator gives in turn. */
  lemma BatchOfTwo(generate: Namer, loaded: map<string, bool>, e1: Entry, e2: Entry, n1: string, n2: string)
    requires generate(loaded, e1) == Success(n1)
    requires generate(loaded[n1 := true], e2) == Success(n2)
    ensures Batch(generate, loaded, [e1, e2]).names == [n1, n2]
  {
    assert [e1][..0] == [];
    assert Batch(generate, loaded, [e1]) == Outcome([n1], loaded[n1 := true]);
    assert [e1, e2][..1] == [e1];
  }

  /** Two copies of the same file, created the same day, get counters 0 and 1 within one
      run: the first new name is marked in use before the second is generated. */
  lemma DuplicatesExample(date: string)
    requires ParseRfc3339(date) == Success("2020_0831")
    ensures var e := Entry("foofile1.mov", date);
      Batch(Generator(TestConfig), map["2020_0828_0.mov" := true], [e, e]).names
      == ["foo_2020_0831_0.mov", "foo_2020_0831_1.mov"]
  {
    var loaded := map["2020_0828_0.mov" := true];
    var e := Entry("foofile1.mov", date);
    FooFirstName(e.name, date);
    FooSecondName(e.name, date);
    assert loaded["foo_2020_0831_0.mov" := true] == map["2020_0828_0.mov" := true, "foo_2020_0831_0.mov" := true];
    GeneratorApplies(TestConfig, loaded, e);
    GeneratorApplies(TestConfig, loaded["foo_2020_0831_0.mov" := true], e);
    BatchOfTwo(Generator(TestConfig), loaded, e, e, "foo_2020_0831_0.mov", "foo_2020_0831_1.mov");
  }

  /** The same with the timestamp of the tests. */
  lemma DuplicatesOfTestTimestamp(date: string)
    requires date == "2020-08-31T19:33:44.561Z"
    ensures var e := Entry("foofile1.mov", date);
      Batch(Generator(TestConfig), map["2020_0828_0.mov" := true], [e, e]).names
      == ["foo_2020_0831_0.mov", "foo_2020_0831_1.mov"]
  {
    ParseRfc3339ValidExample(date);
    DuplicatesExample(date);
  }

  /** Batch over one more entry whose name the generator gives. */
  lemma BatchAppend(generate: Namer, loaded: map<string, bool>, entries: seq<Entry>, e: Entry, n: string)
    requires generate(Batch(generate, loaded, entries).processed, e) == Success(n)
    ensures var prev := Batch(generate, loaded, entries);
      Batch(generate, loaded, entries + [e]) == Outcome(prev.names + [n], prev.processed[n := true])
  {
    assert (entries + [e])[..|entries|] == entries;
  }

  /** When every file was renamed, there is one request per file, in order, each writing
      that file's new name. */
  lemma {:induction false} RequestsAllNamed(ids: seq<string>, names: seq<string>)
    requires |ids| == |names|
    requires forall i :: 0 <= i < |names| ==> names[i] != ""
    ensures |Requests(ids, names)| == |ids|
    ensures forall i :: 0 <= i < |ids| ==> Requests(ids, names)[i] == UpdateRequest(ids[i], names[i])
  {
    if ids != [] {
      var n := |ids| - 1;
      RequestsAllNamed(ids[..n], names[..n]);
    }
  }

  /** The four files of the test of Run, with their creation timestamps. */
  function TestEntries(d1: string, d3: string, d4: string): seq<Entry> {
    [Entry("foofile1.mov", d1), Entry("foofile1.mov", d1), Entry("foobarfile2.mov", d3), Entry("file3.mov", d4)]
  }

  /** The new names of the test of Run differ from each other and from the name in use. */
  lemma TestNamesDistinct()
    ensures var n0, n1, n2, n3, n4 := "2020_0828_0.mov", "foo_2020_0831_0.mov", "foo_2020_0831_1.mov",
                                      "foo_bar_2020_0831_0.mov", "2020_0828_1.mov";
      && n1 != n0 && n2 != n0 && n2 != n1
      && n3 != n0 && n3 != n1 && n3 != n2
      && n4 != n0 && n4 != n1 && n4 != n2 && n4 != n3
  {
    var n0, n1, n2, n3, n4 := "2020_0828_0.mov", "foo_2020_0831_0.mov", "foo_2020_0831_1.mov",
                              "foo_bar_2020_0831_0.mov", "2020_0828_1.mov";
    assert n1[0] != n0[0] && n2[0] != n0[0] && n2[14] != n1[14];
    assert n3[0] != n0[0] && n3[4] != n1[4] && n3[4] != n2[4];
    assert n4[10] != n0[10] && n4[0] != n1[0] && n4[0] != n2[0] && n4[0] != n3[0];
  }

  /** Marking a name in use leaves every other name as it was. */
  lemma TakenUpdate(processed: map<string, bool>, n: string, k: string)
    ensures Taken(processed[n := true], k) <==> k == n || Taken(processed, k)
  {
  }

  /** Batch over four files whose names the generator gives in turn. */
  lemma BatchOfFour(generate: Namer, loaded: map<string, bool>, es: seq<Entry>, n1: string, n2: string, n3: string, n4: string)
    requires |es| == 4
    requires generate(loaded, es[0]) == Success(n1)
    requires generate(loaded[n1 := true], es[1]) == Success(n2)
    requires generate(loaded[n1 := true][n2 := true], es[2]) == Success(n3)
    requires generate(loaded[n1 := true][n2 := true][n3 := true], es[3]) == Success(n4)
    ensures Batch(generate, loaded, es) == Outcome([n1, n2, n3, n4], loaded[n1 := true][n2 := true][n3 := true][n4 := true])
  {
    BatchAppend(generate, loaded, [], es[0], n1);
    assert [] + [es[0]] == es[..1];
    BatchAppend(generate, loaded, es[..1], es[1], n2);
    assert es[..1] + [es[1]] == es[..2];
    BatchAppend(generate, loaded, es[..2], es[2], n3);
    assert es[..2] + [es[2]] == es[..3];
    BatchAppend(generate, loaded, es[..3], es[3], n4);
    assert es[..3] + [es[3]] == es;
  }

  /** The generator on the first two files of the test of Run ... */
  lemma RunTestCopies(d1: string)
    requires ParseRfc3339(d1) == Success("2020_0831")
    ensures var loaded, e := map["2020_0828_0.mov" := true], Entry("foofile1.mov", d1);
      && Generator(TestConfig)(loaded, e) == Success("foo_2020_0831_0.mov")
      && Generator(TestConfig)(loaded["foo_2020_0831_0.mov" := true], e) == Success("foo_2020_0831_1.mov")
  {
    var loaded, e := map["2020_0828_0.mov" := true], Entry("foofile1.mov", d1);
    FooFirstName(e.name, d1);
    GeneratorApplies(TestConfig, loaded, e);
    FooSecondName(e.name, d1);
    assert loaded["foo_2020_0831_0.mov" := true] == map["2020_0828_0.mov" := true, "foo_2020_0831_0.mov" := true];
    GeneratorApplies(TestConfig, loaded["foo_2020_0831_0.mov" := true], e);
  }

  /** ... on the third ... */
  lemma RunTestFooBar(d3: string)
    requires ParseRfc3339(d3) == Success("2020_0831")
    ensures var p2 := map["2020_0828_0.mov" := true]["foo_2020_0831_0.mov" := true]["foo_2020_0831_1.mov" := true];
      Generator(TestConfig)(p2, Entry("foobarfile2.mov", d3)) == Success("foo_bar_2020_0831_0.mov")
  {
    var loaded := map["2020_0828_0.mov" := true];
    var n1, n2, n3 := "foo_2020_0831_0.mov", "foo_2020_0831_1.mov", "foo_bar_2020_0831_0.mov";
    var p1 := loaded[n1 := true];
    TestNamesDistinct();
    TakenUpdate(p1, n2, n3);
    TakenUpdate(loaded, n1, n3);
    FooBarName("foobarfile2.mov", d3, p1[n2 := true]);
    GeneratorApplies(TestConfig, p1[n2 := true], Entry("foobarfile2.mov", d3));
  }

  /** ... and on the fourth. */
  lemma RunTestFileThree(d4: string)
    requires ParseRfc3339(d4) == Success("2020_0828")
    ensures var p3 := map["2020_0828_0.mov" := true]["foo_2020_0831_0.mov" := true]["foo_2020_0831_1.mov" := true]
                        ["foo_bar_2020_0831_0.mov" := true];
      Generator(TestConfig)(p3, Entry("file3.mov", d4)) == Success("2020_0828_1.mov")
  {
    var loaded := map["2020_0828_0.mov" := true];
    var n0, n1, n2, n3, n4 := "2020_0828_0.mov", "foo_2020_0831_0.mov", "foo_2020_0831_1.mov",
                              "foo_bar_2020_0831_0.mov", "2020_0828_1.mov";
    var p1 := loaded[n1 := true];
    var p2 := p1[n2 := true];
    TestNamesDistinct();
    TakenUpdate(p2, n3, n4);
    TakenUpdate(p1, n2, n4);
    TakenUpdate(loaded, n1, n4);
    TakenUpdate(p2, n3, n0);
    FileThreeName("file3.mov", d4, p2[n3 := true]);
    GeneratorApplies(TestConfig, p2[n3 := true], Entry("file3.mov", d4));
  }

  /** The test of Run: with "2020_0828_0.mov" in use, the two copies of "foofile1.mov" get
      counters 0 and 1, "foobarfile2.mov" keeps both keywords and "file3.mov" skips the name
      in use; all four new names end up marked. */
  lemma RunTestOutcome(d1: string, d3: string, d4: string)
    requires ParseRfc3339(d1) == Success("2020_0831") && ParseRfc3339(d3) == Success("2020_0831")
    requires ParseRfc3339(d4) == Success("2020_0828")
    ensures var out := Batch(Generator(TestConfig), map["2020_0828_0.mov" := true], TestEntries(d1, d3, d4));
      && out.names == ["foo_2020_0831_0.mov", "foo_2020_0831_1.mov", "foo_bar_2020_0831_0.mov", "2020_0828_1.mov"]
      && out.processed == map["2020_0828_0.mov" := true, "foo_2020_0831_0.mov" := true, "foo_2020_0831_1.mov" := true,
                              "foo_bar_2020_0831_0.mov" := true, "2020_0828_1.mov" := true]
  {
    RunTestCopies(d1);
    RunTestFooBar(d3);
    RunTestFileThree(d4);
    BatchOfFour(Generator(TestConfig), map["2020_0828_0.mov" := true], TestEntries(d1, d3, d4),
      "foo_2020_0831_0.mov", "foo_2020_0831_1.mov", "foo_bar_2020_0831_0.mov", "2020_0828_1.mov");
  }

  /** Four renamed files give four requests, in order. */
  lemma RequestsOfFour(ids: seq<string>, names: seq<string>)
    requires |ids| == |names| == 4
    requires names[0] != "" && names[1] != "" && names[2] != "" && names[3] != ""
    ensures Requests(ids, names) == [UpdateRequest(ids[0], names[0]), UpdateRequest(ids[1], names[1]),
                                     UpdateRequest(ids[2], names[2]), UpdateRequest(ids[3], names[3])]
  {
    forall i | 0 <= i < |names|
      ensures names[i] != ""
    {
      if i == 0 {
      } else if i == 1 {
      } else if i == 2 {
      } else {
        assert i == 3;
      }
    }
    RequestsAllNamed(ids, names);
    var rs := Requests(ids, names);
    assert rs == [rs[0], rs[1], rs[2], rs[3]];
  }

  /** ... and Run sends one request per file, in order, with the new names of the test. */
  lemma RunTestRequests(d1: string, d3: string, d4: string)
    requires ParseRfc3339(d1) == Success("2020_0831") && ParseRfc3339(d3) == Success("2020_0831")
    requires ParseRfc3339(d4) == Success("2020_0828")
    ensures var out := Batch(Generator(TestConfig), map["2020_0828_0.mov" := true], TestEntries(d1, d3, d4));
      Requests(["11111111", "22222222", "33333333", "44444444"], out.names)
      == [UpdateRequest("11111111", "foo_2020_0831_0.mov"), UpdateRequest("22222222", "foo_2020_0831_1.mov"),
          UpdateRequest("33333333", "foo_bar_2020_0831_0.mov"), UpdateRequest("44444444", "2020_0828_1.mov")]
  {
    var out := Batch(Generator(TestConfig), map["2020_0828_0.mov" := true], TestEntries(d1, d3, d4));
    RunTestOutcome(d1, d3, d4);
    TestRequests(out.names);
  }

  /** The requests for the new names of the test of Run. */
  lemma TestRequests(names: seq<string>)
    requires names == ["foo_2020_0831_0.mov", "foo_2020_0831_1.mov", "foo_bar_2020_0831_0.mov", "2020_0828_1.mov"]
    ensures Requests(["11111111", "22222222", "33333333", "44444444"], names)
      == [UpdateRequest("11111111", "foo_2020_0831_0.mov"), UpdateRequest("22222222", "foo_2020_0831_1.mov"),
          UpdateRequest("33333333", "foo_bar_2020_0831_0.mov"), UpdateRequest("44444444", "2020_0828_1.mov")]
  {
    RequestsOfFour(["11111111", "22222222", "33333333", "44444444"], names);
  }

  /** The timestamps of the test of Run become the dates the expected names carry. */
  lemma RunTestDates(d1: string, d3: string, d4: string)
    requires d1 == "2020-08-31T19:33:44.561Z" && d3 == "2020-08-31T17:33:44.561Z"
    requires d4 == "2020-08-28T19:33:44.561Z"
    ensures ParseRfc3339(d1) == Success("2020_0831") && ParseRfc3339(d3) == Success("2020_0831")
    ensures ParseRfc3339(d4) == Success("2020_0828")
  {
    ParseValidExample(d1);
    ParseEarlierExample(d3);
    ParseOtherDayExample(d4);
    FormatDateExample();
    FormatOtherDateExample();
  }

  /** The test of Run with its own timestamps: the expected new names and update requests. */
  lemma RunTest(d1: string, d3: string, d4: string)
    requires d1 == "2020-08-31T19:33:44.561Z" && d3 == "2020-08-31T17:33:44.561Z"
    requires d4 == "2020-08-28T19:33:44.561Z"
    ensures var out := Batch(Generator(TestConfig), map["2020_0828_0.mov" := true], TestEntries(d1, d3, d4));
      && out.names == ["foo_2020_0831_0.mov", "foo_2020_0831_1.mov", "foo_bar_2020_0831_0.mov", "2020_0828_1.mov"]
      && Requests(["11111111", "22222222", "33333333", "44444444"], out.names)
         == [UpdateRequest("11111111", "foo_2020_0831_0.mov"), UpdateRequest("22222222", "foo_2020_0831_1.mov"),
             UpdateRequest("33333333", "foo_bar_2020_0831_0.mov"), UpdateRequest("44444444", "2020_0828_1.mov")]
  {
    RunTestDates(d1, d3, d4);
    RunTestOutcome(d1, d3, d4);
    RunTestRequests(d1, d3, d4);
  }

  lemma FormatOtherDateExample()
    ensures FormatDate(Date(2020, 8, 28)) == "2020_0828"
  {
    SharedTestFields();
    DayHourFields();
  }

  class Renamer {
    const config: Config
    /** Names already in use (true), reloaded at the start of every run. */
    var processedFiles: map<string, bool>

    constructor (config: Config)
      ensures this.config == config && processedFiles == map[]
    {
      this.config := config;
      processedFiles := map[];
    }

    /** generateNewName: the loops of the source, proved to compute NewName. */
    method GenerateNewName(name: string, createdDate: string) returns (newName: string, err: Option<ParseError>)
      ensures err.None? <==> NewName(config, processedFiles, name, createdDate).Success?
      ensures err.None? ==> newName == NewName(config, processedFiles, name, createdDate).value
      ensures err.None? ==> !Taken(processedFiles, newName)
      ensures err.Some? ==> newName == "" && err.value == ParseError(createdDate)
    {
      var suffix: string;
      var suffixIndex := LastIndexOf(name, '.');
      if suffixIndex == -1 {
        suffix := "";
      } else {
        suffix := name[suffixIndex..];
      }
      assert suffix == Extension(name);

      newName := "";
      var words := config.persistentWords;
      var i := 0;
      while i < |words|
        invariant 0 <= i <= |words|
        invariant newName == KeywordPrefix(name, words[..i], config.nameDelimiter)
      {
        assert words[..i + 1][..i] == words[..i];
        if Contains(ToLower(name), ToLower(words[i])) {
          newName := newName + words[i] + config.nameDelimiter;
        }
        i := i + 1;
      }
      assert words[..i] == words;

      var parsedDate := ParseRfc3339(createdDate);
      if parsedDate.Failure? {
        return "", Some(parsedDate.error);
      }
      newName := newName + parsedDate.value + config.nameDelimiter;
      assert newName == Stem(config, name, parsedDate.value);

      newName := FreeName(newName, suffix);
      err := None;
    }

    /** The counter loop of generateNewName: the first of stem + "0" + ext, stem + "1" + ext,
        ... that is not marked in use. */
    method FreeName(stem: string, suffix: string) returns (dupCheck: string)
      ensures dupCheck == Candidate(stem, FreeCounter(processedFiles, stem, suffix), suffix)
      ensures !Taken(processedFiles, dupCheck)
    {
      var dupFileCount := 0;
      while true
        invariant 0 <= dupFileCount <= |TrueKeys(processedFiles)|
        invariant forall j :: 0 <= j < dupFileCount ==> Taken(processedFiles, Candidate(stem, j, suffix))
        decreases |TrueKeys(processedFiles)| - dupFileCount
      {
        dupCheck := Candidate(stem, dupFileCount, suffix);
        if !Taken(processedFiles, dupCheck) {
          break;
        }
        CandidatesBound(processedFiles, stem, suffix, dupFileCount + 1);
        dupFileCount := dupFileCount + 1;
      }
      LowestFreeUnique(processedFiles, stem, suffix, dupFileCount, FreeCounter(processedFiles, stem, suffix));
    }

    /**
     * The body of Run's loop for one file: it takes its generated name (or "" when the
     * timestamp is refused, and then nothing else happens); otherwise the update request is
     * issued and the new name is marked in use whether or not the update succeeded.
     */
    method RenameFile(file: RenameInfo, update: FileUpdate -> Option<DriveError>)
      returns (request: Option<FileUpdate>, failed: bool)
      modifies this, file
      ensures var r := NewName(config, old(processedFiles), old(file.name), file.createdDate);
        && file.name == (if r.Success? then r.value else "")
        && processedFiles == (if r.Success? then old(processedFiles)[r.value := true] else old(processedFiles))
        && request == (if r.Success? then Some(UpdateRequest(file.id, r.value)) else None)
        && failed == (request.Some? && update(request.value).Some?)
      ensures request.Some? <==> file.name != ""
    {
      if NewName(config, processedFiles, file.name, file.createdDate).Success? {
        NewNameKeepsExtension(config, processedFiles, file.name, file.createdDate);
      }
      var newName, err := GenerateNewName(file.name, file.createdDate);
      file.name := newName;
      if err.Some? {
        return None, false;
      }
      request := Some(UpdateRequest(file.id, file.name));
      var updateErr := update(request.value);
      failed := updateErr.Some?;
      processedFiles := processedFiles[file.name := true];
    }

    /** RenameFile on the file at `index` of a listing without repeats: no other file of the
        listing changes name. */
    method RenameAt(files: seq<RenameInfo>, index: nat, update: FileUpdate -> Option<DriveError>,
                    ghost before: seq<string>, ghost after: seq<string>)
      returns (request: Option<FileUpdate>, failed: bool)
      requires index < |files| && Distinct(files)
      requires |before| == index && Names(files) == before + after
      modifies this, files[index]
      ensures var file := files[index];
        var r := NewName(config, old(processedFiles), after[0], file.createdDate);
        && |after| > 0
        && file.name == (if r.Success? then r.value else "")
        && processedFiles == (if r.Success? then old(processedFiles)[r.value := true] else old(processedFiles))
        && request == (if r.Success? then Some(UpdateRequest(file.id, r.value)) else None)
        && failed == (request.Some? && update(request.value).Some?)
      ensures request.Some? <==> files[index].name != ""
      ensures Names(files) == before + [files[index].name] + after[1..]
    {
      assert Names(files)[index] == after[0];
      request, failed := RenameFile(files[index], update);
      forall j | 0 <= j < |files| && j != index
        ensures files[j].name == old(files[j].name)
      {
        assert files[j] != files[index];
      }
      ReplaceNext(before, after, files[index].name);
    }

    /**
     * Run, given the retriever's answers: the candidate files (or the error that ends the
     * run before anything changes), the names already in use, and the outcome of each update.
     * Every file is renamed to its new name (emptied where the timestamp does not parse, and
     * then not updated); each new name is marked in use whether or not its update succeeded.
     */
    method Run(fetched: Result<seq<RenameInfo>, DriveError>, loaded: map<string, bool>, update: FileUpdate -> Option<DriveError>)
      returns (err: Option<DriveError>, requests: seq<FileUpdate>, rejected: seq<string>)
      requires fetched.Success? ==> Distinct(fetched.value)
      modifies this, FilesOf(fetched)
      ensures fetched.Failure? ==>
        && err == Some(fetched.error) && requests == [] && rejected == []
        && processedFiles == old(processedFiles)
      ensures fetched.Success? ==>
        var files := fetched.value;
        var out := Batch(Generator(config), loaded, old(Entries(files)));
        && err == None
        && processedFiles == out.processed
        && Names(files) == out.names
        && requests == Requests(Ids(files), out.names)
        && rejected == Rejected(requests, update)
    {
      if fetched.Failure? {
        return Some(fetched.error), [], [];
      }
      processedFiles := loaded;
      requests, rejected := RenameAll(fetched.value, update);
      return None, requests, rejected;
    }

    /** The state of Run's loop after the first `i` files: Batch's outcome so far, the names
        of the files done and the original names of the rest, and the requests and
        rejections so far. */
    ghost predicate RenamedUpTo(files: seq<RenameInfo>, i: nat, update: FileUpdate -> Option<DriveError>,
                                loaded: map<string, bool>, entries: seq<Entry>, initial: seq<string>,
                                requests: seq<FileUpdate>, rejected: seq<string>)
      reads this, files
    {
      && i <= |files| == |entries| == |initial|
      && var done := Batch(Generator(config), loaded, entries[..i]);
      && processedFiles == done.processed
      && Names(files) == done.names + initial[i..]
      && requests == Requests(Ids(files)[..i], done.names)
      && rejected == Rejected(requests, update)
    }

    /** One turn of Run's loop: the file at `i` is renamed and the loop state moves on by one. */
    method RenameNext(files: seq<RenameInfo>, i: nat, update: FileUpdate -> Option<DriveError>,
                      ghost loaded: map<string, bool>, ghost entries: seq<Entry>, ghost initial: seq<string>,
                      requests: seq<FileUpdate>, rejected: seq<string>)
      returns (requests': seq<FileUpdate>, rejected': seq<string>)
      requires i < |files| && Distinct(files)
      requires RenamedUpTo(files, i, update, loaded, entries, initial, requests, rejected)
      requires forall j :: 0 <= j < |files| ==> entries[j] == Entry(initial[j], files[j].createdDate)
      modifies this, files[i]
      ensures RenamedUpTo(files, i + 1, update, loaded, entries, initial, requests', rejected')
    {
      ghost var gen := Generator(config);
      ghost var done := Batch(gen, loaded, entries[..i]);
      ghost var ids := Ids(files);
      assert |done.names| == i;
      ghost var r := gen(processedFiles, entries[i]);
      GeneratorApplies(config, processedFiles, entries[i]);
      assert initial[i..][0] == initial[i];
      if r.Success? {
        NewNameKeepsExtension(config, processedFiles, entries[i].name, entries[i].createdDate);
      }
      RunStep(gen, loaded, entries, ids, i, done.names, requests, update, r);
      var request, failed := RenameAt(files, i, update, done.names, initial[i..]);
      assert initial[i..][1..] == initial[i + 1..];
      requests', rejected' := requests, rejected;
      if request.Some? {
        requests' := requests' + [request.value];
        if failed {
          rejected' := rejected' + [files[i].id];
        }
      }
    }

    /**
     * The loop of Run: every file in turn, starting from the names now in use. Every file
     * takes the name Batch gives it, and the requests issued are those of the files that got
     * a name, in order.
     */
    method RenameAll(files: seq<RenameInfo>, update: FileUpdate -> Option<DriveError>)
      returns (requests: seq<FileUpdate>, rejected: seq<string>)
      requires Distinct(files)
      modifies this, files
      ensures var out := Batch(Generator(config), old(processedFiles), old(Entries(files)));
        && processedFiles == out.processed
        && Names(files) == out.names
        && requests == Requests(Ids(files), out.names)
        && rejected == Rejected(requests, update)
    {
      requests, rejected := [], [];
      ghost var loaded := processedFiles;
      ghost var entries := Entries(files);
      ghost var initial := Names(files);
      assert forall j :: 0 <= j < |files| ==> entries[j] == Entry(initial[j], files[j].createdDate);
      assert entries[..0] == [] && initial[0..] == initial;
      var i := 0;
      while i < |files|
        invariant 0 <= i <= |files|
        invariant RenamedUpTo(files, i, update, loaded, entries, initial, requests, rejected)
      {
        requests, rejected := RenameNext(files, i, update, loaded, entries, initial, requests, rejected);
        i := i + 1;
      }
      ghost var done := Batch(Generator(config), loaded, entries[..i]);
      assert entries[..i] == entries;
      assert initial[i..] == [];
      assert done.names + [] == done.names;
      assert Ids(files)[..i] == Ids(files);
    }
  }
}
