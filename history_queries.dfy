/**
 * The queries of the history parser (src/historyParser.js): listing every conversation
 * newest first, fetching one conversation with its messages, and searching all of them.
 * The file system is an input: whether the projects directory exists, the log files found
 * under it in the order they are found, and two read functions, one for the reads of the
 * listing and one for the later read of a listed file, which may see a different file.
 */
module HistoryQueries {
  import opened Wrappers
  import opened Records
  import opened TextLines
  import opened PathNames
  import opened HistoryMetadata
  import Seqs
  import Sorting

  /** Why a query fails. */
  datatype Error =
    | HistoryDirNotFound(projectsDir: string)
    | ConversationNotFound
    | ReadFailed(path: string)

  /** What the parser sees of the disk. */
  datatype Disk = Disk(
    projectsDirExists: bool,
    files: seq<string>,
    read: string -> Option<string>,
    reread: string -> Option<string>)

  /** The summary of one log file, read through `read`. */
  function MetaOfFile(claudeDir: string, read: string -> Option<string>,
                      parse: string -> Option<Record>): string -> Option<ConversationMeta>
  {
    (file: string) => MetadataOf(claudeDir, file, read(file), parse)
  }

  /**
   * `findConversations`: no listing without the projects directory; otherwise the summaries
   * of the files that have one, newest first.
   */
  function Listing(claudeDir: string, disk: Disk, parse: string -> Option<Record>)
    : Result<seq<ConversationMeta>, Error>
  {
    if !disk.projectsDirExists then Failure(HistoryDirNotFound(ProjectsDir(claudeDir)))
    else Success(Sorting.SortDesc(Seqs.Collect(disk.files, MetaOfFile(claudeDir, disk.read, parse)),
                                  LastUpdateKey))
  }

  method FindConversations(claudeDir: string, disk: Disk, parse: string -> Option<Record>)
    returns (r: Result<seq<ConversationMeta>, Error>)
    ensures r == Listing(claudeDir, disk, parse)
  {
    var projectsDir := ProjectsDir(claudeDir);
    if !disk.projectsDirExists {
      return Failure(HistoryDirNotFound(projectsDir));
    }
    var files := disk.files;
    var conversations: seq<ConversationMeta> := [];
    for k := 0 to |files|
      invariant conversations == Seqs.Collect(files[..k], MetaOfFile(claudeDir, disk.read, parse))
    {
      assert files[..k + 1][..k] == files[..k];
      var metadata := ParseConversationMetadata(claudeDir, files[k], disk.read(files[k]), parse);
      if metadata.Some? {
        conversations := conversations + [metadata.value];
      }
    }
    assert files[..|files|] == files;
    return Success(Sorting.SortDesc(conversations, LastUpdateKey));
  }

  /** The listing fails exactly when the projects directory is missing, and says where it looked. */
  lemma ListingFailsIff(claudeDir: string, disk: Disk, parse: string -> Option<Record>)
    ensures Listing(claudeDir, disk, parse).Failure? <==> !disk.projectsDirExists
    ensures Listing(claudeDir, disk, parse).Failure? ==>
      Listing(claudeDir, disk, parse).error == HistoryDirNotFound(JoinPath(claudeDir, "projects"))
  {
  }

  /**
   * The listing holds exactly the summaries of the files that have one, each as often as it
   * is found, newest first, and summaries with the same `lastUpdate` in the order found.
   */
  lemma ListingIsSortedSelection(claudeDir: string, disk: Disk, parse: string -> Option<Record>,
                                 m: ConversationMeta, c: int)
    requires disk.projectsDirExists
    ensures Listing(claudeDir, disk, parse).Success?
    ensures var cs := Listing(claudeDir, disk, parse).value;
      var found := Seqs.Collect(disk.files, MetaOfFile(claudeDir, disk.read, parse));
      && Sorting.SortedDesc(cs, LastUpdateKey)
      && multiset(cs) == multiset(found)
      && (m in cs <==>
            exists i :: 0 <= i < |disk.files| && MetaOfFile(claudeDir, disk.read, parse)(disk.files[i]) == Some(m))
      && Sorting.WithKey(cs, LastUpdateKey, c) == Sorting.WithKey(found, LastUpdateKey, c)
  {
    var found := Seqs.Collect(disk.files, MetaOfFile(claudeDir, disk.read, parse));
    var cs := Sorting.SortDesc(found, LastUpdateKey);
    Sorting.SortDescSorted(found, LastUpdateKey);
    Sorting.SortDescPermutes(found, LastUpdateKey);
    Sorting.SortDescStable(found, LastUpdateKey, c);
    Seqs.CollectMembers(disk.files, MetaOfFile(claudeDir, disk.read, parse), m);
    assert m in cs <==> m in found by {
      assert m in cs <==> multiset(cs)[m] > 0;
      assert m in found <==> multiset(found)[m] > 0;
    }
  }

  /** A conversation together with the records of its file. */
  datatype Conversation = Conversation(meta: ConversationMeta, messages: seq<Record>)

  /** The test `conversations.find` applies. */
  function HasId(id: string): ConversationMeta -> bool
  {
    (m: ConversationMeta) => m.id == id
  }

  /**
   * `getConversation`: the first listed conversation with the id, read once more, with the
   * records of the lines that parse, in file order.
   */
  function ConversationById(claudeDir: string, disk: Disk, parse: string -> Option<Record>, id: string)
    : Result<Conversation, Error>
  {
    match Listing(claudeDir, disk, parse)
    case Failure(e) => Failure(e)
    case Success(cs) =>
      match Seqs.FindFirst(cs, HasId(id))
      case None => Failure(ConversationNotFound)
      case Some(k) =>
        var content := disk.reread(cs[k].filePath);
        if content.None? then Failure(ReadFailed(cs[k].filePath))
        else Success(Conversation(cs[k], Seqs.Collect(Lines(content.value), parse)))
  }

  /** The records of the lines that parse, skipping the others. */
  method ParseMessages(lines: seq<string>, parse: string -> Option<Record>) returns (messages: seq<Record>)
    ensures messages == Seqs.Collect(lines, parse)
  {
    messages := [];
    for i := 0 to |lines|
      invariant messages == Seqs.Collect(lines[..i], parse)
    {
      assert lines[..i + 1][..i] == lines[..i];
      var msg := parse(lines[i]);
      if msg.Some? {
        messages := messages + [msg.value];
      }
    }
    assert lines[..|lines|] == lines;
  }

  method GetConversation(claudeDir: string, disk: Disk, parse: string -> Option<Record>, id: string)
    returns (r: Result<Conversation, Error>)
    ensures r == ConversationById(claudeDir, disk, parse, id)
  {
    var conversations := FindConversations(claudeDir, disk, parse);
    if conversations.Failure? {
      return Failure(conversations.error);
    }
    var k := Seqs.FindFirst(conversations.value, HasId(id));
    if k.None? {
      return Failure(ConversationNotFound);
    }
    var conversation := conversations.value[k.value];
    var content := disk.reread(conversation.filePath);
    if content.None? {
      return Failure(ReadFailed(conversation.filePath));
    }
    var lines := Lines(content.value);
    var messages := ParseMessages(lines, parse);
    return Success(Conversation(conversation, messages));
  }

  /**
   * The lookup finds the first listed conversation with the id, and fails with "not found"
   * exactly when the listing has none; its messages are those of the file it reads again.
   */
  lemma ConversationLookup(claudeDir: string, disk: Disk, parse: string -> Option<Record>, id: string)
    ensures var r := ConversationById(claudeDir, disk, parse, id);
      var l := Listing(claudeDir, disk, parse);
      && (l.Failure? ==> r == Failure(l.error))
      && (r == Failure(ConversationNotFound) <==>
            l.Success? && forall j :: 0 <= j < |l.value| ==> l.value[j].id != id)
      && (r.Success? ==> l.Success? && exists k :: FirstWithId(l.value, id, k) && r.value.meta == l.value[k])
      && (r.Success? ==>
            && r.value.meta.id == id && disk.reread(r.value.meta.filePath).Some?
            && r.value.messages == Seqs.Collect(Lines(disk.reread(r.value.meta.filePath).value), parse))
  {
    var l := Listing(claudeDir, disk, parse);
    if l.Success? {
      Seqs.FindFirstSpec(l.value, HasId(id));
      var k := Seqs.FindFirst(l.value, HasId(id));
      if k.Some? {
        assert FirstWithId(l.value, id, k.value);
      }
    }
  }

  /**
   * When the listing holds the id, the lookup reads the first conversation with it again: it
   * succeeds with that conversation exactly when the file can be read, and otherwise fails
   * naming that file.
   */
  lemma ConversationFound(claudeDir: string, disk: Disk, parse: string -> Option<Record>, id: string, k: int)
    requires Listing(claudeDir, disk, parse).Success?
    requires FirstWithId(Listing(claudeDir, disk, parse).value, id, k)
    ensures var r := ConversationById(claudeDir, disk, parse, id);
      var c := Listing(claudeDir, disk, parse).value[k];
      && (r.Success? <==> disk.reread(c.filePath).Some?)
      && (r.Success? ==> r.value.meta == c)
      && (r.Failure? ==> r == Failure(ReadFailed(c.filePath)))
  {
    var cs := Listing(claudeDir, disk, parse).value;
    Seqs.FindFirstSpec(cs, HasId(id));
    assert HasId(id)(cs[k]);
    assert Seqs.FindFirst(cs, HasId(id)) == Some(k);
  }

  /** `cs[k]` is the first conversation of `cs` with the id. */
  predicate FirstWithId(cs: seq<ConversationMeta>, id: string, k: int)
  {
    0 <= k < |cs| && cs[k].id == id && forall j :: 0 <= j < k ==> cs[j].id != id
  }

  /** ASCII `toLowerCase` of one character. */
  function LowerChar(c: char): char
  {
    if 'A' <= c <= 'Z' then (c as int + 32) as char else c
  }

  /** `toLowerCase`, on ASCII letters. */
  function ToLower(s: string): (r: string)
    ensures |r| == |s|
    ensures forall i :: 0 <= i < |s| ==> r[i] == LowerChar(s[i])
  {
    if s == "" then "" else [LowerChar(s[0])] + ToLower(s[1..])
  }

  /** Lowering twice is lowering once, so a lowered query finds itself. */
  lemma ToLowerIdempotent(s: string)
    ensures ToLower(ToLower(s)) == ToLower(s)
  {
    assert forall i :: 0 <= i < |s| ==> LowerChar(LowerChar(s[i])) == LowerChar(s[i]);
  }

  /** The text of a `text` part. */
  function TextOf(p: Part): (t: Option<string>)
    ensures t.Some? <==> p.Text?
  {
    if p.Text? then Some(p.text) else None
  }

  /**
   * The searchable text of a record: its string content, or the texts of its text parts
   * joined by spaces, or nothing.
   */
  function TextContent(r: Record): string
  {
    match r.content
    case Absent => ""
    case Str(s) => s
    case Parts(ps) => Seqs.Join(Seqs.Collect(ps, TextOf), " ")
  }

  /** A string content is searched as is; a list of parts with one text part, as that text. */
  lemma TextContentCases(r: Record)
    ensures r.content.Str? ==> TextContent(r) == r.content.s
    ensures r.content.Absent? ==> TextContent(r) == ""
    ensures r.content.Parts? && |Seqs.Collect(r.content.parts, TextOf)| == 1 ==>
      exists k :: 0 <= k < |r.content.parts| && r.content.parts[k] == Text(TextContent(r))
  {
    if r.content.Parts? && |Seqs.Collect(r.content.parts, TextOf)| == 1 {
      var texts := Seqs.Collect(r.content.parts, TextOf);
      Seqs.CollectMembers(r.content.parts, TextOf, texts[0]);
    }
  }

  /** A line matches when it parses and its lowered text contains the term. */
  predicate LineMatches(line: string, term: string, parse: string -> Option<Record>)
  {
    parse(line).Some? && Seqs.Contains(ToLower(TextContent(parse(line).value)), term)
  }

  /** One search hit. */
  datatype Match = Match(lineNumber: nat, content: string, kind: Kind, timestamp: Option<nat>)

  /** The hit for the record of line `i`. */
  function MatchOf(i: nat, r: Record): Match
  {
    Match(i, TextContent(r), r.kind, r.timestamp)
  }

  /** The hits of a file's lines, numbered by their index among the lines. */
  function MatchesIn(lines: seq<string>, term: string, parse: string -> Option<Record>): (ms: seq<Match>)
    ensures |ms| <= |lines|
  {
    if lines == [] then []
    else
      var n := |lines| - 1;
      MatchesIn(lines[..n], term, parse)
      + (if LineMatches(lines[n], term, parse) then [MatchOf(n, parse(lines[n]).value)] else [])
  }

  /** `ms` reports line `i`. */
  predicate Reports(ms: seq<Match>, i: nat)
  {
    exists k :: 0 <= k < |ms| && ms[k].lineNumber == i
  }

  /** `m` is the hit of a matching line of `lines`. */
  predicate IsHitOf(lines: seq<string>, m: Match, term: string, parse: string -> Option<Record>)
  {
    && m.lineNumber < |lines|
    && LineMatches(lines[m.lineNumber], term, parse)
    && m == MatchOf(m.lineNumber, parse(lines[m.lineNumber]).value)
  }

  /** Every hit is the hit of a matching line, below the number of lines. */
  lemma {:induction false} MatchesInSound(lines: seq<string>, term: string, parse: string -> Option<Record>)
    ensures forall k :: 0 <= k < |MatchesIn(lines, term, parse)| ==>
      IsHitOf(lines, MatchesIn(lines, term, parse)[k], term, parse)
  {
    if lines != [] {
      var n := |lines| - 1;
      var init := lines[..n];
      var before := MatchesIn(init, term, parse);
      MatchesInSound(init, term, parse);
      var ms := MatchesIn(lines, term, parse);
      forall k | 0 <= k < |ms|
        ensures IsHitOf(lines, ms[k], term, parse)
      {
        if k < |before| {
          assert ms[k] == before[k];
          assert IsHitOf(init, before[k], term, parse);
          assert lines[before[k].lineNumber] == init[before[k].lineNumber];
        }
      }
    }
  }

  /** The hits rise strictly in line number. */
  lemma {:induction false} MatchesInRising(lines: seq<string>, term: string, parse: string -> Option<Record>)
    ensures forall k, l :: 0 <= k < l < |MatchesIn(lines, term, parse)| ==>
      MatchesIn(lines, term, parse)[k].lineNumber < MatchesIn(lines, term, parse)[l].lineNumber
  {
    if lines != [] {
      var n := |lines| - 1;
      var init := lines[..n];
      var before := MatchesIn(init, term, parse);
      MatchesInRising(init, term, parse);
      MatchesInSound(init, term, parse);
      var ms := MatchesIn(lines, term, parse);
      forall k, l | 0 <= k < l < |ms|
        ensures ms[k].lineNumber < ms[l].lineNumber
      {
        assert ms[k] == before[k];
        assert IsHitOf(init, before[k], term, parse);
        if l < |before| {
          assert ms[l] == before[l];
        }
      }
    }
  }

  /** Every matching line is reported. */
  lemma {:induction false} MatchesInComplete(lines: seq<string>, term: string, parse: string -> Option<Record>, i: nat)
    requires i < |lines| && LineMatches(lines[i], term, parse)
    ensures Reports(MatchesIn(lines, term, parse), i)
  {
    var n := |lines| - 1;
    var init := lines[..n];
    var before := MatchesIn(init, term, parse);
    var ms := MatchesIn(lines, term, parse);
    if i < n {
      assert lines[i] == init[i];
      MatchesInComplete(init, term, parse, i);
      var k :| 0 <= k < |before| && before[k].lineNumber == i;
      assert ms[k] == before[k];
    } else {
      assert ms[|ms| - 1].lineNumber == i;
    }
  }

  /** A line is reported exactly when it matches. */
  lemma MatchesInReportsIff(lines: seq<string>, term: string, parse: string -> Option<Record>, i: nat)
    requires i < |lines|
    ensures Reports(MatchesIn(lines, term, parse), i) <==> LineMatches(lines[i], term, parse)
  {
    if LineMatches(lines[i], term, parse) {
      MatchesInComplete(lines, term, parse, i);
    }
    if Reports(MatchesIn(lines, term, parse), i) {
      MatchesInSound(lines, term, parse);
      var k :| 0 <= k < |MatchesIn(lines, term, parse)| && MatchesIn(lines, term, parse)[k].lineNumber == i;
      assert IsHitOf(lines, MatchesIn(lines, term, parse)[k], term, parse);
    }
  }

  /** An empty query matches every line that parses. */
  lemma EmptyQueryMatchesParsedLines(line: string, parse: string -> Option<Record>)
    ensures LineMatches(line, ToLower(""), parse) <==> parse(line).Some?
  {
    if parse(line).Some? {
      Seqs.ContainsEmpty(ToLower(TextContent(parse(line).value)));
    }
  }

  /** The hits of the lines, as the inner loop of `searchConversations` pushes them. */
  method ScanLines(lines: seq<string>, term: string, parse: string -> Option<Record>)
    returns (matches: seq<Match>)
    ensures matches == MatchesIn(lines, term, parse)
  {
    matches := [];
    for i := 0 to |lines|
      invariant matches == MatchesIn(lines[..i], term, parse)
    {
      assert lines[..i + 1][..i] == lines[..i];
      var msg := parse(lines[i]);
      if msg.None? {
        continue;
      }
      var textContent := TextContent(msg.value);
      if Seqs.Contains(ToLower(textContent), term) {
        matches := matches + [Match(i, textContent, msg.value.kind, msg.value.timestamp)];
      }
    }
    assert lines[..|lines|] == lines;
  }

  /** A conversation with its hits. */
  datatype SearchResult = SearchResult(conv: ConversationMeta, matches: seq<Match>, matchCount: nat)

  /** The result for one readable conversation, none when nothing in it matches. */
  function ResultAt(c: ConversationMeta, term: string, reread: string -> Option<string>,
                    parse: string -> Option<Record>): (r: Option<SearchResult>)
    ensures r.Some? ==> r.value.conv == c && r.value.matchCount == |r.value.matches| > 0
  {
    var content := reread(c.filePath);
    if content.None? then None
    else
      var ms := MatchesIn(Lines(content.value), term, parse);
      if |ms| > 0 then Some(SearchResult(c, ms, |ms|)) else None
  }

  function ResultOf(term: string, reread: string -> Option<string>, parse: string -> Option<Record>)
    : ConversationMeta -> Option<SearchResult>
  {
    (c: ConversationMeta) => ResultAt(c, term, reread, parse)
  }

  /** The test for a conversation whose file cannot be read again. */
  function Unreadable(reread: string -> Option<string>): ConversationMeta -> bool
  {
    (c: ConversationMeta) => reread(c.filePath).None?
  }

  /**
   * The scan over the listed conversations: it fails at the first file it cannot read;
   * otherwise it keeps, in listing order, the conversations with at least one hit.
   */
  function SearchIn(cs: seq<ConversationMeta>, term: string, reread: string -> Option<string>,
                    parse: string -> Option<Record>): Result<seq<SearchResult>, Error>
  {
    match Seqs.FindFirst(cs, Unreadable(reread))
    case Some(k) => Failure(ReadFailed(cs[k].filePath))
    case None => Success(Seqs.Collect(cs, ResultOf(term, reread, parse)))
  }

  /** The key `searchConversations` sorts on. */
  function MatchCountKey(r: SearchResult): int
  {
    r.matchCount
  }

  /** The listing's key, of a result's conversation. */
  function ResultLastUpdateKey(r: SearchResult): int
  {
    LastUpdateKey(r.conv)
  }

  /** `searchConversations`: the results with the most hits first. */
  function Search(claudeDir: string, disk: Disk, parse: string -> Option<Record>, query: string)
    : Result<seq<SearchResult>, Error>
  {
    match Listing(claudeDir, disk, parse)
    case Failure(e) => Failure(e)
    case Success(cs) =>
      match SearchIn(cs, ToLower(query), disk.reread, parse)
      case Failure(e) => Failure(e)
      case Success(rs) => Success(Sorting.SortDesc(rs, MatchCountKey))
  }

  method SearchConversations(claudeDir: string, disk: Disk, parse: string -> Option<Record>, query: string)
    returns (r: Result<seq<SearchResult>, Error>)
    ensures r == Search(claudeDir, disk, parse, query)
  {
    var conversations := FindConversations(claudeDir, disk, parse);
    if conversations.Failure? {
      return Failure(conversations.error);
    }
    var searchTerm := ToLower(query);
    var results := SearchListed(conversations.value, searchTerm, disk.reread, parse);
    if results.Failure? {
      return Failure(results.error);
    }
    return Success(Sorting.SortDesc(results.value, MatchCountKey));
  }

  /**
   * The state of that loop after `k` files: each of them could be read again, and
   * `results` holds, in order, those with hits.
   */
  predicate ScannedUpTo(cs: seq<ConversationMeta>, k: nat, results: seq<SearchResult>, term: string,
                        reread: string -> Option<string>, parse: string -> Option<Record>)
  {
    && k <= |cs|
    && (forall j :: 0 <= j < k ==> reread(cs[j].filePath).Some?)
    && results == Seqs.Collect(cs[..k], ResultOf(term, reread, parse))
  }

  /** The loop of `searchConversations` over the listed conversations. */
  method SearchListed(cs: seq<ConversationMeta>, term: string, reread: string -> Option<string>,
                      parse: string -> Option<Record>)
    returns (r: Result<seq<SearchResult>, Error>)
    ensures r == SearchIn(cs, term, reread, parse)
  {
    var results: seq<SearchResult> := [];
    var k := 0;
    while k < |cs|
      invariant ScannedUpTo(cs, k, results, term, reread, parse)
    {
      var failed, next := SearchNext(cs, k, results, term, reread, parse);
      if failed {
        return Failure(ReadFailed(cs[k].filePath));
      }
      results := next;
      k := k + 1;
    }
    SearchInScanned(cs, results, term, reread, parse);
    return Success(results);
  }

  /**
   * One round of that loop: the next file is read again and fails the scan when it cannot
   * be, or adds its result, when it has hits, to those of the files before it.
   */
  method SearchNext(cs: seq<ConversationMeta>, k: nat, results: seq<SearchResult>, term: string,
                    reread: string -> Option<string>, parse: string -> Option<Record>)
    returns (failed: bool, next: seq<SearchResult>)
    requires k < |cs| && ScannedUpTo(cs, k, results, term, reread, parse)
    ensures failed ==> SearchIn(cs, term, reread, parse) == Failure(ReadFailed(cs[k].filePath))
    ensures !failed ==> ScannedUpTo(cs, k + 1, next, term, reread, parse)
  {
    var conv := cs[k];
    var content := reread(conv.filePath);
    if content.None? {
      SearchInStopsAt(cs, k, term, reread, parse);
      return true, results;
    }
    var result := SearchFile(conv, content.value, term, reread, parse);
    Seqs.CollectStep(cs, k, ResultOf(term, reread, parse));
    next := results;
    if result.Some? {
      next := results + [result.value];
    }
    failed := false;
  }

  /** Once every file is scanned, the loop's results are the scan's. */
  lemma SearchInScanned(cs: seq<ConversationMeta>, results: seq<SearchResult>, term: string,
                        reread: string -> Option<string>, parse: string -> Option<Record>)
    requires ScannedUpTo(cs, |cs|, results, term, reread, parse)
    ensures SearchIn(cs, term, reread, parse) == Success(results)
  {
    assert cs[..|cs|] == cs;
    SearchInReadable(cs, term, reread, parse);
  }

  /** With every file readable, the scan keeps the results of the conversations with hits. */
  lemma SearchInReadable(cs: seq<ConversationMeta>, term: string, reread: string -> Option<string>,
                         parse: string -> Option<Record>)
    requires forall j :: 0 <= j < |cs| ==> reread(cs[j].filePath).Some?
    ensures SearchIn(cs, term, reread, parse) == Success(Seqs.Collect(cs, ResultOf(term, reread, parse)))
  {
    Seqs.FindFirstSpec(cs, Unreadable(reread));
    assert forall j :: 0 <= j < |cs| ==> !Unreadable(reread)(cs[j]);
  }

  /** The scan fails at the first file it cannot read. */
  lemma SearchInStopsAt(cs: seq<ConversationMeta>, k: nat, term: string, reread: string -> Option<string>,
                        parse: string -> Option<Record>)
    requires k < |cs| && reread(cs[k].filePath).None?
    requires forall j :: 0 <= j < k ==> reread(cs[j].filePath).Some?
    ensures SearchIn(cs, term, reread, parse) == Failure(ReadFailed(cs[k].filePath))
  {
    Seqs.FindFirstSpec(cs, Unreadable(reread));
    assert Unreadable(reread)(cs[k]);
    assert forall j :: 0 <= j < k ==> !Unreadable(reread)(cs[j]);
  }

  /** One round of that loop, once the file's content is read. */
  method SearchFile(conv: ConversationMeta, content: string, term: string,
                    reread: string -> Option<string>, parse: string -> Option<Record>)
    returns (r: Option<SearchResult>)
    requires reread(conv.filePath) == Some(content)
    ensures r == ResultAt(conv, term, reread, parse)
  {
    var lines := Lines(content);
    var matches := ScanLines(lines, term, parse);
    if |matches| > 0 {
      return Some(SearchResult(conv, matches, |matches|));
    }
    return None;
  }

  /** Collecting values whose key is their element's key keeps a descending order. */
  lemma {:induction false} CollectKeepsOrder<A, T>(xs: seq<A>, f: A -> Option<T>, key1: A -> int, key2: T -> int)
    requires Sorting.SortedDesc(xs, key1)
    requires forall x :: f(x).Some? ==> key2(f(x).value) == key1(x)
    ensures Sorting.SortedDesc(Seqs.Collect(xs, f), key2)
  {
    if xs != [] {
      var init := xs[..|xs| - 1];
      var last := xs[|xs| - 1];
      var before := Seqs.Collect(init, f);
      assert Sorting.SortedDesc(init, key1) by {
        forall i, j | 0 <= i < j < |init|
          ensures key1(init[i]) >= key1(init[j])
        {
          assert init[i] == xs[i] && init[j] == xs[j];
        }
      }
      CollectKeepsOrder(init, f, key1, key2);
      if f(last).Some? {
        forall k | 0 <= k < |before|
          ensures key2(before[k]) >= key2(f(last).value)
        {
          Seqs.CollectMembers(init, f, before[k]);
          var i :| 0 <= i < |init| && f(init[i]) == Some(before[k]);
          assert init[i] == xs[i];
        }
      }
    }
  }

  /**
   * Every result comes from a listed conversation with at least one hit, and each listed
   * conversation with a hit has its result; `matchCount` counts the hits.
   */
  lemma SearchResultsAreMatchingConversations(cs: seq<ConversationMeta>, term: string,
                                              reread: string -> Option<string>,
                                              parse: string -> Option<Record>, r: SearchResult)
    requires SearchIn(cs, term, reread, parse).Success?
    ensures forall j :: 0 <= j < |cs| ==> reread(cs[j].filePath).Some?
    ensures r in SearchIn(cs, term, reread, parse).value <==>
      exists j :: 0 <= j < |cs| && ResultAt(cs[j], term, reread, parse) == Some(r)
    ensures r in SearchIn(cs, term, reread, parse).value ==>
      && r.conv in cs
      && r.matchCount == |r.matches| > 0
      && r.matches == MatchesIn(Lines(reread(r.conv.filePath).value), term, parse)
  {
    Seqs.FindFirstSpec(cs, Unreadable(reread));
    Seqs.CollectMembers(cs, ResultOf(term, reread, parse), r);
  }

  /**
   * What `searchConversations` returns: a result for a listed conversation exactly when that
   * conversation has at least one hit; `matchCount` counts the hits of its file.
   */
  lemma SearchReturnsMatchingConversations(claudeDir: string, disk: Disk, parse: string -> Option<Record>,
                                           query: string, r: SearchResult)
    requires Search(claudeDir, disk, parse, query).Success?
    ensures Listing(claudeDir, disk, parse).Success?
    ensures var cs := Listing(claudeDir, disk, parse).value;
      r in Search(claudeDir, disk, parse, query).value <==>
        exists j :: 0 <= j < |cs| && ResultAt(cs[j], ToLower(query), disk.reread, parse) == Some(r)
    ensures r in Search(claudeDir, disk, parse, query).value ==>
      && r.conv in Listing(claudeDir, disk, parse).value
      && r.matchCount == |r.matches| > 0
      && r.matches == MatchesIn(Lines(disk.reread(r.conv.filePath).value), ToLower(query), parse)
  {
    var cs := Listing(claudeDir, disk, parse).value;
    var rs := SearchIn(cs, ToLower(query), disk.reread, parse).value;
    SearchResultsAreMatchingConversations(cs, ToLower(query), disk.reread, parse, r);
    Sorting.SortDescPermutes(rs, MatchCountKey);
    assert r in Sorting.SortDesc(rs, MatchCountKey) <==> r in rs by {
      assert r in Sorting.SortDesc(rs, MatchCountKey) <==> multiset(Sorting.SortDesc(rs, MatchCountKey))[r] > 0;
      assert r in rs <==> multiset(rs)[r] > 0;
    }
  }

  /**
   * The results are ordered by hit count, highest first, and among equal counts by the
   * listing's order, newest first.
   */
  lemma SearchOrder(claudeDir: string, disk: Disk, parse: string -> Option<Record>, query: string)
    requires Search(claudeDir, disk, parse, query).Success?
    ensures Sorting.LexSortedDesc(Search(claudeDir, disk, parse, query).value, MatchCountKey, ResultLastUpdateKey)
  {
    var cs := Listing(claudeDir, disk, parse).value;
    var f := ResultOf(ToLower(query), disk.reread, parse);
    var found := Seqs.Collect(disk.files, MetaOfFile(claudeDir, disk.read, parse));
    Sorting.SortDescSorted(found, LastUpdateKey);
    Sorting.SortDescPermutes(found, LastUpdateKey);
    CollectKeepsOrder(cs, f, LastUpdateKey, ResultLastUpdateKey);
    Sorting.SortDescKeepsEarlierOrder(Seqs.Collect(cs, f), MatchCountKey, ResultLastUpdateKey);
  }
}
