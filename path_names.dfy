/**
 * The path arithmetic of the history parser (src/historyParser.js): the projects directory
 * under the configuration directory, a conversation's id (its file name without `.jsonl`)
 * and its project path (its directory relative to the projects directory, with every `-`
 * read back as `/`). Directory and base names follow POSIX `path.dirname`/`path.basename`
 * of Node.js.
 */
module PathNames {
  import opened Wrappers
  import Seqs

  /** The largest index below `hi` whose character satisfies `p`. */
  function LastIndexBelow(s: string, hi: nat, p: char -> bool): (r: Option<nat>)
    requires hi <= |s|
    ensures r.Some? ==> r.value < hi && p(s[r.value])
    ensures r.Some? ==> forall k :: r.value < k < hi ==> !p(s[k])
    ensures r.None? ==> forall k :: 0 <= k < hi ==> !p(s[k])
  {
    if hi == 0 then None
    else if p(s[hi - 1]) then Some(hi - 1)
    else LastIndexBelow(s, hi - 1, p)
  }

  predicate IsSlash(c: char) { c == '/' }

  predicate NotSlash(c: char) { c != '/' }

  /**
   * `path.dirname`: everything before the last slash that precedes the last non-slash
   * character (a slash at index 0 does not count); "/" or "." when there is none, and "//"
   * for a path that starts with exactly two slashes before its last name.
   */
  function DirName(p: string): (d: string)
    ensures p == "" ==> d == "."
  {
    if p == "" then "."
    else
      var lastName := LastIndexBelow(p, |p|, NotSlash);
      var end := if lastName.None? then None else LastIndexBelow(p, lastName.value, IsSlash);
      if end.None? || end.value == 0 then (if p[0] == '/' then "/" else ".")
      else if p[0] == '/' && end.value == 1 then "//"
      else p[..end.value]
  }

  /** The directory of `d/name` is `d`, for a directory not ending in a slash and a plain name. */
  lemma DirNameOfChild(d: string, name: string)
    requires d != "" && d[|d| - 1] != '/'
    requires name != "" && '/' !in name
    ensures DirName(d + "/" + name) == d
  {
    var p := d + "/" + name;
    assert p[|p| - 1] == name[|name| - 1];
    assert LastIndexBelow(p, |p|, NotSlash) == Some(|p| - 1);
    forall k | |d| < k < |p| - 1
      ensures !IsSlash(p[k])
    {
      assert p[k] == name[k - |d| - 1];
    }
    assert p[|d|] == '/';
    LastSlashIs(p, |p| - 1, |d|);
    if |d| == 1 {
      assert p[0] == d[0] != '/';
    }
    assert p[..|d|] == d;
  }

  /** A slash at `i` with no slash after it below `hi` is the last one below `hi`. */
  lemma LastSlashIs(p: string, hi: nat, i: nat)
    requires i < hi <= |p| && IsSlash(p[i])
    requires forall k :: i < k < hi ==> !IsSlash(p[k])
    ensures LastIndexBelow(p, hi, IsSlash) == Some(i)
    decreases hi
  {
    if hi - 1 != i {
      LastSlashIs(p, hi - 1, i);
    }
  }

  /** The part of `p` after its last slash. */
  function LastSegment(p: string): (seg: string)
    ensures '/' !in seg
    ensures |seg| <= |p| && seg == p[|p| - |seg|..]
  {
    match LastIndexBelow(p, |p|, IsSlash)
    case None =>
      assert forall c :: c in p ==> c != '/';
      p
    case Some(k) =>
      var seg := p[k + 1..];
      assert forall j :: 0 <= j < |seg| ==> seg[j] == p[k + 1 + j];
      seg
  }

  /** `s` ends with `suffix`. */
  predicate EndsWith(s: string, suffix: string)
  {
    |suffix| <= |s| && s[|s| - |suffix|..] == suffix
  }

  /**
   * `path.basename(p, ext)`: the last segment, without `ext` when it ends with it and is
   * more than `ext` alone.
   */
  function BaseName(p: string, ext: string): (b: string)
    ensures '/' !in b
  {
    var seg := LastSegment(p);
    if EndsWith(seg, ext) && seg != ext then seg[..|seg| - |ext|] else seg
  }

  /** The last segment of `dir/rest` is `rest` when `rest` holds no slash. */
  lemma LastSegmentOfChild(dir: string, rest: string)
    requires '/' !in rest
    ensures LastSegment(dir + "/" + rest) == rest
  {
    var p := dir + "/" + rest;
    forall k | |dir| < k < |p|
      ensures !IsSlash(p[k])
    {
      assert p[k] == rest[k - |dir| - 1];
    }
    LastSlashIs(p, |p|, |dir|);
    assert p[|dir| + 1..] == rest;
  }

  /** The id of `dir/name.jsonl` is `name`. */
  lemma BaseNameOfFile(dir: string, name: string, ext: string)
    requires name != "" && '/' !in name && '/' !in ext
    ensures BaseName(dir + "/" + name + ext, ext) == name
  {
    var rest := name + ext;
    assert '/' !in rest by {
      forall j | 0 <= j < |rest|
        ensures rest[j] != '/'
      {
        if j < |name| {
          assert rest[j] == name[j];
        } else {
          assert rest[j] == ext[j - |name|];
        }
      }
    }
    assert dir + "/" + name + ext == dir + "/" + rest;
    LastSegmentOfChild(dir, rest);
    assert rest[|rest| - |ext|..] == ext;
    assert rest[..|rest| - |ext|] == name;
  }

  /** `path.join(dir, name)` for a plain name, without normalisation. */
  function JoinPath(dir: string, name: string): (p: string)
    ensures EndsWith(p, name)
  {
    if dir == "" then name
    else if dir[|dir| - 1] == '/' then dir + name
    else dir + "/" + name
  }

  /** The projects directory under the configuration directory. */
  function ProjectsDir(claudeDir: string): string
  {
    JoinPath(claudeDir, "projects")
  }

  /** The index of the first occurrence of `pat` in `s` at or after `from`. */
  function FirstOccurrenceFrom(s: string, pat: string, from: nat): (r: Option<nat>)
    decreases |s| - from
    ensures r.Some? ==> from <= r.value && Seqs.OccursAt(s, pat, r.value)
    ensures r.Some? ==> forall k :: from <= k < r.value ==> !Seqs.OccursAt(s, pat, k)
    ensures r.None? ==> forall k :: from <= k ==> !Seqs.OccursAt(s, pat, k)
  {
    if from + |pat| > |s| then None
    else if s[from..from + |pat|] == pat then Some(from)
    else FirstOccurrenceFrom(s, pat, from + 1)
  }

  /** `s.replace(pat, '')` with a string pattern: the first occurrence of `pat` is cut out. */
  function RemoveFirst(s: string, pat: string): (r: string)
    ensures !Seqs.Contains(s, pat) ==> r == s
    ensures Seqs.Contains(s, pat) ==> |r| == |s| - |pat|
    ensures FirstOccurrenceFrom(s, pat, 0).Some? ==>
      r == s[..FirstOccurrenceFrom(s, pat, 0).value] + s[FirstOccurrenceFrom(s, pat, 0).value + |pat|..]
  {
    match FirstOccurrenceFrom(s, pat, 0)
    case None => s
    case Some(k) => s[..k] + s[k + |pat|..]
  }

  /** `s.replace(/^\//, '')`: one leading slash is dropped. */
  function StripLeadingSlash(s: string): (r: string)
    ensures s != "" && s[0] == '/' ==> s == [s[0]] + r
    ensures !(s != "" && s[0] == '/') ==> r == s
  {
    if s != "" && s[0] == '/' then s[1..] else s
  }

  /** `s.replace(/-/g, '/')`: every dash becomes a slash, every other character stays. */
  function ReplaceDashes(s: string): (r: string)
    ensures |r| == |s| && '-' !in r
    ensures forall i :: 0 <= i < |s| ==> r[i] == (if s[i] == '-' then '/' else s[i])
  {
    if s == "" then ""
    else [if s[0] == '-' then '/' else s[0]] + ReplaceDashes(s[1..])
  }

  /** The project path of a conversation file. */
  function ProjectPath(filePath: string, projectsDir: string): (p: string)
    ensures '-' !in p
  {
    ReplaceDashes(StripLeadingSlash(RemoveFirst(DirName(filePath), projectsDir)))
  }

  /** Cutting out the first occurrence of a prefix leaves what follows it. */
  lemma RemovePrefix(prefix: string, rest: string)
    ensures RemoveFirst(prefix + rest, prefix) == rest
  {
    var s := prefix + rest;
    assert s[0..|prefix|] == prefix;
    assert FirstOccurrenceFrom(s, prefix, 0) == Some(0);
    assert s[|prefix|..] == rest;
  }

  /**
   * A log at `projectsDir/project/name` belongs to `project`, with its dashes read back as
   * slashes.
   */
  lemma ProjectPathOfLog(projectsDir: string, project: string, name: string)
    requires project != "" && project[|project| - 1] != '/'
    requires name != "" && '/' !in name
    ensures ProjectPath(projectsDir + "/" + project + "/" + name, projectsDir) == ReplaceDashes(project)
  {
    DirOfLog(projectsDir, project, name);
    ProjectOfDir(projectsDir, project);
  }

  /** The directory of `projectsDir/project/name` is `projectsDir/project`. */
  lemma DirOfLog(projectsDir: string, project: string, name: string)
    requires project != "" && project[|project| - 1] != '/'
    requires name != "" && '/' !in name
    ensures DirName(projectsDir + "/" + project + "/" + name) == projectsDir + ("/" + project)
  {
    var d := projectsDir + ("/" + project);
    Regroup(projectsDir, project, name);
    assert d[|d| - 1] == project[|project| - 1];
    DirNameOfChild(d, name);
  }

  /** The directory `projectsDir/project`, relative to `projectsDir` and without its slash, is `project`. */
  lemma ProjectOfDir(projectsDir: string, project: string)
    ensures StripLeadingSlash(RemoveFirst(projectsDir + ("/" + project), projectsDir)) == project
  {
    var rel := "/" + project;
    RemovePrefix(projectsDir, rel);
    assert rel[0] == '/' && rel[1..] == project;
  }

  lemma Regroup(a: string, b: string, c: string)
    ensures a + "/" + b + "/" + c == (a + ("/" + b)) + "/" + c
  {
  }
}
