/**
 * External tools and skills (ezagent/external.py): names of the form
 * `git+<url>` are cloned into `.ezagent/external/<kind>/<short name>` and
 * taken out of the local lists, and `.ezagent/` is added to the project's
 * `.gitignore` when any such name was seen.
 *
 * Cloning and pulling are subprocess calls and are not modelled; URL
 * parsing is the parameter `urlPath`, which yields the path component of a
 * URL. The `.gitignore` edit is a transform of the file's content, `None`
 * standing for a missing file.
 */
module External {
  import opened Wrappers
  import opened Strings
  import opened OrderedMap

  const GitPrefix := "git+"

  /** `is_git_ref`. */
  predicate IsGitRef(name: string) {
    GitPrefix <= name
  }

  /** The URL a git reference names: what follows the prefix. */
  function GitUrl(name: string): (r: string)
    requires IsGitRef(name)
    ensures GitPrefix + r == name
  {
    name[|GitPrefix|..]
  }

  // ----- _repo_short_name -----

  /** Python's `s.rstrip("/")`. */
  function TrimTrailingSlashes(s: string): (r: string)
    ensures r <= s
    ensures r == [] || r[|r| - 1] != '/'
    ensures forall k :: |r| <= k < |s| ==> s[k] == '/'
  {
    if |s| > 0 && s[|s| - 1] == '/' then TrimTrailingSlashes(s[..|s| - 1]) else s
  }

  /** Python's `s.rsplit("/", 1)[-1]`: what follows the last slash, or all of `s`. */
  function LastSegment(s: string): (r: string)
    ensures |r| <= |s| && r == s[|s| - |r|..]
    ensures '/' !in r
    ensures |r| < |s| ==> s[|s| - |r| - 1] == '/'
  {
    if |s| == 0 || s[|s| - 1] == '/' then ""
    else LastSegment(s[..|s| - 1]) + [s[|s| - 1]]
  }

  /** Drops one trailing ".git", as `basename[:-4]` after `endswith(".git")`. */
  function DropGitSuffix(b: string): string {
    if |b| >= 4 && b[|b| - 4..] == ".git" then b[..|b| - 4] else b
  }

  /** `_repo_short_name`, given the path component of the URL. */
  function ShortName(path: string): (r: string)
    ensures '/' !in r
  {
    var b := LastSegment(TrimTrailingSlashes(path));
    var r := DropGitSuffix(b);
    assert forall c :: c in r ==> c in b;
    r
  }

  lemma {:induction false} TrimSlashesOf(s: string, slashes: string)
    requires s == [] || s[|s| - 1] != '/'
    requires forall k :: 0 <= k < |slashes| ==> slashes[k] == '/'
    ensures TrimTrailingSlashes(s + slashes) == s
    decreases |slashes|
  {
    if |slashes| > 0 {
      var shorter := slashes[..|slashes| - 1];
      assert (s + slashes)[..|s + slashes| - 1] == s + shorter;
      TrimSlashesOf(s, shorter);
    } else {
      assert s + slashes == s;
    }
  }

  lemma {:induction false} LastSegmentAfterSlash(prefix: string, seg: string)
    requires '/' !in seg
    ensures LastSegment(prefix + "/" + seg) == seg
    decreases |seg|
  {
    var s := prefix + "/" + seg;
    if |seg| > 0 {
      var init := seg[..|seg| - 1];
      assert s[..|s| - 1] == prefix + "/" + init;
      assert s[|s| - 1] == seg[|seg| - 1];
      assert seg == init + [seg[|seg| - 1]];
      LastSegmentAfterSlash(prefix, init);
    } else {
      assert s[|s| - 1] == '/';
    }
  }

  /**
   * The short name of `<prefix>/<name>.git`, with any trailing slashes, is
   * `name`; without the ".git" it is `name` too when `name` is not empty
   * and does not itself end in ".git".
   */
  lemma ShortNameOfRepoPath(prefix: string, name: string, slashes: string)
    requires '/' !in name
    requires forall k :: 0 <= k < |slashes| ==> slashes[k] == '/'
    ensures ShortName(prefix + "/" + name + ".git" + slashes) == name
    ensures name != "" && !(|name| >= 4 && name[|name| - 4..] == ".git") ==> ShortName(prefix + "/" + name + slashes) == name
  {
    var seg := name + ".git";
    assert '/' !in seg by {
      assert forall k :: 0 <= k < |seg| ==> seg[k] == (if k < |name| then name[k] else ".git"[k - |name|]);
    }
    TrimSlashesOf(prefix + "/" + seg, slashes);
    assert prefix + "/" + name + ".git" == prefix + "/" + seg;
    LastSegmentAfterSlash(prefix, seg);
    assert seg[|seg| - 4..] == ".git" && seg[..|seg| - 4] == name;
    if name != "" && !(|name| >= 4 && name[|name| - 4..] == ".git") {
      TrimSlashesOf(prefix + "/" + name, slashes);
      LastSegmentAfterSlash(prefix, name);
    }
  }

  // ----- _ensure_gitignore -----

  const Marker := ".ezagent/"

  /**
   * `_ensure_gitignore` as a transform of the file's content: a file that
   * already mentions the marker is left alone; otherwise the marker line is
   * appended, after a newline when the content does not end with one.
   */
  function EnsureGitignore(content: Option<string>): (r: string)
    ensures Contains(r, Marker)
    ensures content.None? ==> r == Marker + "\n"
    ensures content.Some? && Contains(content.value, Marker) ==> r == content.value
    ensures content.Some? && !Contains(content.value, Marker) ==>
      content.value <= r && |r| >= |content.value| + |Marker| + 1 && r[|r| - |Marker| - 1..] == Marker + "\n"
    ensures content.Some? && !Contains(content.value, Marker) ==>
      (|r| == |content.value| + |Marker| + 2 <==> content.value != "" && content.value[|content.value| - 1] != '\n')
  {
    match content
    case None =>
      assert OccursAt(Marker + "\n", Marker, 0);
      Marker + "\n"
    case Some(c) =>
      if Contains(c, Marker) then c
      else
        var c' := if c != "" && c[|c| - 1] != '\n' then c + "\n" else c;
        var r := c' + Marker + "\n";
        assert r[|c'|..|c'| + |Marker|] == Marker;
        assert OccursAt(r, Marker, |c'|);
        r
  }

  /** Applying the edit to its own result changes nothing. */
  lemma EnsureGitignoreIdempotent(content: Option<string>)
    ensures EnsureGitignore(Some(EnsureGitignore(content))) == EnsureGitignore(content)
  {
  }

  // ----- resolve_externals -----

  /** Where an external of `kind` ("tools" or "skills") is checked out; `Path / ""` adds nothing. */
  function ExternalDest(projectDir: string, kind: string, short: string): string {
    projectDir + "/.ezagent/external/" + kind + (if short == "" then "" else "/" + short)
  }

  /** The names that are not git references, in their original order. */
  function LocalNames(names: seq<string>): (r: seq<string>)
    ensures |r| <= |names|
    ensures forall x :: x in r <==> x in names && !IsGitRef(x)
  {
    if |names| == 0 then []
    else (if IsGitRef(names[0]) then [] else [names[0]]) + LocalNames(names[1..])
  }

  /** The short names of the git references, in their original order. */
  function GitShortNames(names: seq<string>, urlPath: string -> string): (r: seq<string>)
    ensures |r| + |LocalNames(names)| == |names|
    ensures forall s :: s in r <==> exists k :: 0 <= k < |names| && IsGitRef(names[k]) && ShortName(urlPath(GitUrl(names[k]))) == s
  {
    if |names| == 0 then []
    else
      var rest := GitShortNames(names[1..], urlPath);
      assert forall k :: 1 <= k < |names| ==> names[k] == names[1..][k - 1];
      (if IsGitRef(names[0]) then [ShortName(urlPath(GitUrl(names[0])))] else []) + rest
  }

  lemma {:induction false} LocalNamesAppend(a: seq<string>, b: seq<string>)
    ensures LocalNames(a + b) == LocalNames(a) + LocalNames(b)
    decreases |a|
  {
    if |a| > 0 {
      assert (a + b)[1..] == a[1..] + b;
      LocalNamesAppend(a[1..], b);
    } else {
      assert a + b == b;
    }
  }

  /** One assignment `paths[short] = dest` per git reference, in order. */
  function DestEntries(projectDir: string, kind: string, shorts: seq<string>): (r: seq<Entry<string, string>>)
    ensures |r| == |shorts|
    ensures forall i :: 0 <= i < |r| ==> r[i] == Entry(shorts[i], ExternalDest(projectDir, kind, shorts[i]))
  {
    seq(|shorts|, i requires 0 <= i < |shorts| => Entry(shorts[i], ExternalDest(projectDir, kind, shorts[i])))
  }

  lemma {:induction false} LastBindingOfDests(projectDir: string, kind: string, es: seq<Entry<string, string>>, s: string)
    requires forall i :: 0 <= i < |es| ==> es[i].value == ExternalDest(projectDir, kind, es[i].key)
    ensures LastBinding(es, s).Some? <==> HasKey(es, s)
    ensures LastBinding(es, s).Some? ==> LastBinding(es, s).value == ExternalDest(projectDir, kind, s)
    decreases |es|
  {
    if |es| > 0 && es[|es| - 1].key != s {
      var init := es[..|es| - 1];
      LastBindingOfDests(projectDir, kind, init, s);
      if HasKey(es, s) {
        var i :| 0 <= i < |es| && es[i].key == s;
        assert init[i].key == s;
      }
      if HasKey(init, s) {
        var i :| 0 <= i < |init| && init[i].key == s;
        assert es[i].key == s;
      }
    }
  }

  lemma AnyGitRef(names: seq<string>, urlPath: string -> string)
    ensures |GitShortNames(names, urlPath)| > 0 <==> exists k :: 0 <= k < |names| && IsGitRef(names[k])
  {
    if exists k :: 0 <= k < |names| && IsGitRef(names[k]) {
      var k :| 0 <= k < |names| && IsGitRef(names[k]);
      assert ShortName(urlPath(GitUrl(names[k]))) in GitShortNames(names, urlPath);
    }
  }

  datatype Resolution = Resolution(
    externalTools: seq<Entry<string, string>>,
    externalSkills: seq<Entry<string, string>>,
    localTools: seq<string>,
    localSkills: seq<string>,
    touchGitignore: bool)

  /** The checked-out location of every git reference of one kind, keyed by short name. */
  function ExternalPaths(projectDir: string, kind: string, names: seq<string>, urlPath: string -> string): (r: seq<Entry<string, string>>)
    ensures UniqueKeys(r)
  {
    PutAll([], DestEntries(projectDir, kind, GitShortNames(names, urlPath)))
  }

  /** `resolve_externals`, without the clones. */
  function ResolveExternals(projectDir: string, toolNames: seq<string>, skillNames: seq<string>, urlPath: string -> string): (r: Resolution)
    ensures r.localTools == LocalNames(toolNames) && r.localSkills == LocalNames(skillNames)
    ensures r.externalTools == ExternalPaths(projectDir, "tools", toolNames, urlPath)
    ensures r.externalSkills == ExternalPaths(projectDir, "skills", skillNames, urlPath)
    ensures r.touchGitignore <==>
      (exists k :: 0 <= k < |toolNames| && IsGitRef(toolNames[k])) || (exists k :: 0 <= k < |skillNames| && IsGitRef(skillNames[k]))
  {
    var tools := GitShortNames(toolNames, urlPath);
    var skills := GitShortNames(skillNames, urlPath);
    var r := Resolution(
      ExternalPaths(projectDir, "tools", toolNames, urlPath),
      ExternalPaths(projectDir, "skills", skillNames, urlPath),
      LocalNames(toolNames),
      LocalNames(skillNames),
      |tools| > 0 || |skills| > 0);
    AnyGitRef(toolNames, urlPath);
    AnyGitRef(skillNames, urlPath);
    r
  }

  /**
   * A short name has an external path exactly when some git reference of
   * that kind yields it, and the path is its checkout directory; a later
   * reference with the same short name takes the earlier one's place.
   */
  lemma {:induction false} ExternalPathsLookup(projectDir: string, kind: string, names: seq<string>, urlPath: string -> string, s: string)
    ensures Find(ExternalPaths(projectDir, kind, names, urlPath), s).Some? <==>
      exists k :: 0 <= k < |names| && IsGitRef(names[k]) && ShortName(urlPath(GitUrl(names[k]))) == s
    ensures Find(ExternalPaths(projectDir, kind, names, urlPath), s).Some? ==>
      Find(ExternalPaths(projectDir, kind, names, urlPath), s).value == ExternalDest(projectDir, kind, s)
  {
    var shorts := GitShortNames(names, urlPath);
    var es := DestEntries(projectDir, kind, shorts);
    PutAllFind([], es, s);
    LastBindingOfDests(projectDir, kind, es, s);
    if s in shorts {
      var i :| 0 <= i < |shorts| && shorts[i] == s;
      assert es[i].key == s;
    }
    if HasKey(es, s) {
      var i :| 0 <= i < |es| && es[i].key == s;
      assert shorts[i] == s;
    }
  }
}
