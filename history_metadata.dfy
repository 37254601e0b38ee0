/**
 * `parseConversationMetadata` (src/historyParser.js): the summary of one conversation log.
 * The file's content is an input (`None` when it cannot be read) and `JSON.parse` is the
 * parameter `parse`, `None` where it would throw or yield something that is not an object.
 */
module HistoryMetadata {
  import opened Wrappers
  import opened Records
  import opened TextLines
  import opened PathNames
  import Seqs

  /** The title of a conversation without a user text. */
  const EmptyTitle: string := "Empty conversation"

  /** The extension of a conversation log. */
  const LogExtension: string := ".jsonl"

  /** The summary `parseConversationMetadata` returns. */
  datatype ConversationMeta = ConversationMeta(
    id: string,
    filePath: string,
    projectPath: string,
    firstMessage: string,
    messageCount: nat,
    userMessageCount: nat,
    totalTokens: nat,
    created: Option<nat>,
    lastUpdate: Option<nat>,
    sessionId: string)

  /**
   * The text a user record contributes: for a user record with truthy content, the string
   * itself, or the `text` of the first part (`''` when that part has none).
   */
  function UserText(r: Record): (t: Option<string>)
    ensures t.Some? <==> r.kind == User && ContentTruthy(r.content)
    ensures t.Some? && r.content.Str? ==> t.value == r.content.s
  {
    if r.kind == User && ContentTruthy(r.content) then
      match r.content
      case Str(s) => Some(s)
      case Parts(ps) => Some(if |ps| > 0 && ps[0].Text? then ps[0].text else "")
    else None
  }

  /** The user text of a log line, when the line parses. */
  function UserTextOfLine(parse: string -> Option<Record>, line: string): Option<string>
  {
    if parse(line).Some? then UserText(parse(line).value) else None
  }

  /** `UserTextOfLine` as a value, for collecting over the lines. */
  function UserLine(parse: string -> Option<Record>): string -> Option<string>
  {
    (line: string) => UserTextOfLine(parse, line)
  }

  /** `(usage.input_tokens || 0) + (usage.output_tokens || 0)`, or 0 without usage. */
  function RecordTokens(r: Record): nat
  {
    if r.usage.Some? then
      (if r.usage.value.inputTokens.Some? then r.usage.value.inputTokens.value else 0)
      + (if r.usage.value.outputTokens.Some? then r.usage.value.outputTokens.value else 0)
    else 0
  }

  /** The tokens of a line: those of its record, 0 for a line that does not parse. */
  function LineTokens(parse: string -> Option<Record>, line: string): nat
  {
    if parse(line).Some? then RecordTokens(parse(line).value) else 0
  }

  /** The token total of `lines`, as the loop accumulates it. */
  function TokenSum(lines: seq<string>, parse: string -> Option<Record>): nat
  {
    if lines == [] then 0
    else TokenSum(lines[..|lines| - 1], parse) + LineTokens(parse, lines[|lines| - 1])
  }

  /** The token total of a sequence of records. */
  function RecordsTokens(rs: seq<Record>): nat
  {
    if rs == [] then 0 else RecordTokens(rs[0]) + RecordsTokens(rs[1..])
  }

  lemma {:induction false} RecordsTokensAppend(a: seq<Record>, b: seq<Record>)
    ensures RecordsTokens(a + b) == RecordsTokens(a) + RecordsTokens(b)
  {
    if a == [] {
      assert a + b == b;
    } else {
      assert (a + b)[1..] == a[1..] + b;
      RecordsTokensAppend(a[1..], b);
    }
  }

  /** The loop's running total is the token total of the records that parse: malformed lines add nothing. */
  lemma {:induction false} TokenSumOverParsedRecords(lines: seq<string>, parse: string -> Option<Record>)
    ensures TokenSum(lines, parse) == RecordsTokens(Seqs.Collect(lines, parse))
  {
    if lines != [] {
      var init := lines[..|lines| - 1];
      var last := parse(lines[|lines| - 1]);
      TokenSumOverParsedRecords(init, parse);
      var tail := if last.Some? then [last.value] else [];
      RecordsTokensAppend(Seqs.Collect(init, parse), tail);
      if last.Some? {
        assert RecordsTokens(tail) == RecordTokens(last.value) by {
          assert tail[1..] == [];
        }
      }
    }
  }

  /** The title: the first collected user text, unless there is none or it is empty. */
  function Title(userMessages: seq<string>): (t: string)
    ensures t != ""
    ensures userMessages != [] && userMessages[0] != "" ==> t == userMessages[0]
  {
    if userMessages != [] && userMessages[0] != "" then userMessages[0] else EmptyTitle
  }

  /** The key the listing sorts on: `lastUpdate`, a missing one below every instant. */
  function LastUpdateKey(m: ConversationMeta): int
  {
    if m.lastUpdate.Some? then m.lastUpdate.value else -1
  }

  /** The summary record, once the lines have been walked. */
  function Summary(claudeDir: string, filePath: string, lineCount: nat, first: Record, last: Record,
                   userMessages: seq<string>, totalTokens: nat): ConversationMeta
  {
    ConversationMeta(
      BaseName(filePath, LogExtension),
      filePath,
      ProjectPath(filePath, ProjectsDir(claudeDir)),
      Title(userMessages),
      lineCount,
      |userMessages|,
      totalTokens,
      first.timestamp,
      if last.timestamp.Some? then last.timestamp else first.timestamp,
      first.sessionId)
  }

  /**
   * The summary of a log with lines `lines`: none when it has no lines, or its first line,
   * or its last line when there are several, does not parse.
   */
  function SummaryOfLines(claudeDir: string, filePath: string, lines: seq<string>,
                          parse: string -> Option<Record>): Option<ConversationMeta>
  {
    if |lines| == 0 then None
    else
      var first := parse(lines[0]);
      var last := if |lines| > 1 then parse(lines[|lines| - 1]) else first;
      if first.None? || last.None? then None
      else Some(Summary(claudeDir, filePath, |lines|, first.value, last.value,
                        Seqs.Collect(lines, UserLine(parse)), TokenSum(lines, parse)))
  }

  /** The summary of the log at `filePath`, none when it cannot be read. */
  function MetadataOf(claudeDir: string, filePath: string, content: Option<string>,
                      parse: string -> Option<Record>): Option<ConversationMeta>
  {
    if content.None? then None else SummaryOfLines(claudeDir, filePath, Lines(content.value), parse)
  }

  /**
   * `parseConversationMetadata`: read the file, split its content into lines and summarise them.
   */
  method ParseConversationMetadata(claudeDir: string, filePath: string, content: Option<string>,
                                   parse: string -> Option<Record>)
    returns (meta: Option<ConversationMeta>)
    ensures meta == MetadataOf(claudeDir, filePath, content, parse)
  {
    if content.None? {
      return None;
    }
    var lines := Lines(content.value);
    meta := SummarizeLines(claudeDir, filePath, lines, parse);
  }

  /**
   * The body of `parseConversationMetadata` once the lines are known: decode the first and
   * last line, then walk all lines collecting user texts and adding up tokens, skipping the
   * lines that do not parse.
   */
  method SummarizeLines(claudeDir: string, filePath: string, lines: seq<string>,
                        parse: string -> Option<Record>)
    returns (meta: Option<ConversationMeta>)
    ensures meta == SummaryOfLines(claudeDir, filePath, lines, parse)
  {
    if |lines| == 0 {
      return None;
    }
    var firstMessage := parse(lines[0]);
    if firstMessage.None? {
      return None;
    }
    var lastMessage := if |lines| > 1 then parse(lines[|lines| - 1]) else firstMessage;
    if lastMessage.None? {
      return None;
    }
    var userMessages: seq<string> := [];
    var totalTokens: nat := 0;
    for i := 0 to |lines|
      invariant userMessages == Seqs.Collect(lines[..i], UserLine(parse))
      invariant totalTokens == TokenSum(lines[..i], parse)
    {
      assert lines[..i + 1][..i] == lines[..i];
      var msg := parse(lines[i]);
      if msg.None? {
        continue;
      }
      if msg.value.kind == User && ContentTruthy(msg.value.content) {
        userMessages := userMessages + [UserText(msg.value).value];
      }
      if msg.value.usage.Some? {
        totalTokens := totalTokens + RecordTokens(msg.value);
      }
    }
    assert lines[..|lines|] == lines;
    meta := Some(Summary(claudeDir, filePath, |lines|, firstMessage.value, lastMessage.value,
                         userMessages, totalTokens));
  }

  /**
   * A log has no summary exactly when it cannot be read, has no lines, or its first or last
   * line does not parse; a malformed line in between does not matter.
   */
  lemma NoMetadataIff(claudeDir: string, filePath: string, content: Option<string>,
                      parse: string -> Option<Record>)
    ensures MetadataOf(claudeDir, filePath, content, parse).None? <==>
      || content.None?
      || Lines(content.value) == []
      || parse(Lines(content.value)[0]).None?
      || parse(Lines(content.value)[|Lines(content.value)| - 1]).None?
  {
  }

  /**
   * Every line counts as a message, malformed ones included; the user-message count and
   * the token total cover the lines that parse.
   */
  lemma MetadataCounts(claudeDir: string, filePath: string, lines: seq<string>,
                       parse: string -> Option<Record>)
    requires |lines| > 0 && parse(lines[0]).Some? && parse(lines[|lines| - 1]).Some?
    ensures var m := SummaryOfLines(claudeDir, filePath, lines, parse).value;
      && m.messageCount == |lines| > 0
      && m.userMessageCount <= m.messageCount
      && m.totalTokens == RecordsTokens(Seqs.Collect(lines, parse))
  {
    TokenSumOverParsedRecords(lines, parse);
  }

  /**
   * The title is the text of the first user line with truthy content, unless that text is
   * empty or there is no such line.
   */
  lemma TitleIsFirstUserText(claudeDir: string, filePath: string, lines: seq<string>,
                             parse: string -> Option<Record>)
    requires |lines| > 0 && parse(lines[0]).Some? && parse(lines[|lines| - 1]).Some?
    ensures var k := Seqs.FindFirst(lines, Seqs.Yields(UserLine(parse)));
      var title := SummaryOfLines(claudeDir, filePath, lines, parse).value.firstMessage;
      && (k.None? ==> title == EmptyTitle)
      && (k.Some? ==> FirstUserLineTitle(lines[k.value], parse, title))
  {
    TitleOfUserTexts(lines, parse);
  }

  /**
   * `line` is a user line with truthy content, and `title` is its text, or the empty-title
   * text when that is empty.
   */
  predicate FirstUserLineTitle(line: string, parse: string -> Option<Record>, title: string)
  {
    && parse(line).Some? && parse(line).value.kind == User && ContentTruthy(parse(line).value.content)
    && var text := UserText(parse(line).value).value;
      title == if text != "" then text else EmptyTitle
  }

  lemma TitleOfUserTexts(lines: seq<string>, parse: string -> Option<Record>)
    ensures var k := Seqs.FindFirst(lines, Seqs.Yields(UserLine(parse)));
      var title := Title(Seqs.Collect(lines, UserLine(parse)));
      && (k.None? ==> title == EmptyTitle)
      && (k.Some? ==> FirstUserLineTitle(lines[k.value], parse, title))
  {
    Seqs.CollectFirst(lines, UserLine(parse));
  }

  /**
   * The identity of a summary: the id is the file name without `.jsonl`, the project path
   * is derived from the directory, both timestamps and the session come from the first and
   * last lines, the last line's timestamp falling back to the first's.
   */
  lemma MetadataIdentity(claudeDir: string, filePath: string, lines: seq<string>,
                         parse: string -> Option<Record>)
    requires |lines| > 0 && parse(lines[0]).Some? && parse(lines[|lines| - 1]).Some?
    ensures SummaryOfLines(claudeDir, filePath, lines, parse).Some?
    ensures var first := parse(lines[0]).value;
      var last := parse(lines[|lines| - 1]).value;
      var m := SummaryOfLines(claudeDir, filePath, lines, parse).value;
      && m.filePath == filePath
      && m.id == BaseName(filePath, LogExtension)
      && m.projectPath == ProjectPath(filePath, ProjectsDir(claudeDir))
      && m.created == first.timestamp
      && m.sessionId == first.sessionId
      && (last.timestamp.Some? ==> m.lastUpdate == last.timestamp)
      && (last.timestamp.None? ==> m.lastUpdate == first.timestamp)
  {
  }

  /** A log stored as `projects/project/name.jsonl` has id `name` and the project's decoded path. */
  lemma SummaryOfStoredLog(claudeDir: string, project: string, name: string, lineCount: nat,
                           first: Record, last: Record, userMessages: seq<string>, totalTokens: nat)
    requires project != "" && project[|project| - 1] != '/'
    requires name != "" && '/' !in name
    ensures var m := Summary(claudeDir, ProjectsDir(claudeDir) + "/" + project + "/" + name + LogExtension,
                             lineCount, first, last, userMessages, totalTokens);
      m.id == name && m.projectPath == ReplaceDashes(project)
  {
    var projectsDir := ProjectsDir(claudeDir);
    var dir := projectsDir + "/" + project;
    var file := name + LogExtension;
    LogFileName(name);
    BaseNameOfFile(dir, name, LogExtension);
    AppendAssoc(dir + "/", name, LogExtension);
    ProjectPathOfLog(projectsDir, project, file);
  }

  /** The file name of a log holds no slash when its name holds none. */
  lemma LogFileName(name: string)
    requires name != "" && '/' !in name
    ensures name + LogExtension != "" && '/' !in name + LogExtension
  {
    var file := name + LogExtension;
    forall j | 0 <= j < |file|
      ensures file[j] != '/'
    {
      if j < |name| {
        assert file[j] == name[j];
      }
    }
  }

  lemma AppendAssoc(a: string, b: string, c: string)
    ensures a + b + c == a + (b + c)
  {
  }
}
