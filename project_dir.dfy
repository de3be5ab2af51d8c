/** The project directory created from the template and changed in place
    by the provisioning steps (src/create-sub/index.js). Its text files are
    a map from path (relative to the project root, written `./…`) to
    content; `package.json` is held parsed. Each file step is given twice:
    as a function from the directory before to its outcome, which the
    pipeline's specification uses, and as a method of `ProjectDir` that
    reads, changes and writes the files the way the source does. */
module Workspace {
  import opened Strings
  import opened UserInput
  import opened Rewrites

  /** The directory's contents. `manifest` is None when `package.json` is
      missing or is not a JSON object. */
  datatype Tree = Tree(files: map<string, string>, manifest: Option<Manifest>)

  /** The directory as a whole: absent (never created, or removed) or present. */
  datatype Dir = Absent | Present(tree: Tree)

  /** How a step ended, with the contents as it left them: a step that
      throws part way keeps what it wrote before throwing. */
  datatype Outcome = Returned(tree: Tree) | Threw(tree: Tree)

  function OutcomeOf(threw: bool, t: Tree): Outcome {
    if threw then Threw(t) else Returned(t)
  }

  // ---------------------------------------------------------------------
  // Directories inside the tree

  predicate Under(path: string, dir: string) {
    HasPrefix(path, dir + "/")
  }

  /** A directory exists when some file lies under it. */
  predicate DirExists(files: map<string, string>, dir: string) {
    exists k :: k in files && Under(k, dir)
  }

  function Rebase(k: string, src: string, dst: string): string
    requires Under(k, src)
  {
    dst + k[|src|..]
  }

  lemma RebaseInjective(k1: string, k2: string, src: string, dst: string)
    requires Under(k1, src) && Under(k2, src)
    requires Rebase(k1, src, dst) == Rebase(k2, src, dst)
    ensures k1 == k2
  {
    assert k1[|src|..] == Rebase(k1, src, dst)[|dst|..];
    assert k2[|src|..] == Rebase(k2, src, dst)[|dst|..];
    assert k1 == k1[..|src|] + k1[|src|..];
    assert k2 == k2[..|src|] + k2[|src|..];
  }

  /** A file under `src` is moved to a place under `dst`. */
  lemma RebaseUnder(k: string, src: string, dst: string)
    requires Under(k, src)
    ensures Under(Rebase(k, src, dst), dst)
  {
    var r := Rebase(k, src, dst);
    assert k[|src|] == (src + "/")[|src|];
    assert r[|dst|] == k[|src|];
    assert r[..|dst| + 1] == dst + "/";
  }

  /** `shell.mv(src, dst)` for a destination that is not an existing
      directory: every file under `src` is moved to the same place under
      `dst`, and every other file stays. */
  function MoveDir(files: map<string, string>, src: string, dst: string): (r: map<string, string>)
    ensures forall k :: k in files && Under(k, src) ==> Rebase(k, src, dst) in r && r[Rebase(k, src, dst)] == files[k]
    ensures forall k :: k in files && !Under(k, src) ==> k in r
    ensures forall k :: k in files && !Under(k, src) && !Under(k, dst) ==> r[k] == files[k]
    ensures forall k :: k in r ==>
              (k in files && !Under(k, src))
              || exists k0 :: k0 in files && Under(k0, src) && k == Rebase(k0, src, dst)
  {
    forall k1, k2 | k1 in files && Under(k1, src) && k2 in files && Under(k2, src)
                    && Rebase(k1, src, dst) == Rebase(k2, src, dst)
      ensures k1 == k2
    {
      RebaseInjective(k1, k2, src, dst);
    }
    var kept := map k | k in files && !Under(k, src) :: files[k];
    var moved := map k | k in files && Under(k, src) :: Rebase(k, src, dst) := files[k];
    assert forall k :: k in moved ==> Under(k, dst) by {
      forall k | k in moved ensures Under(k, dst) {
        var k0 :| k0 in files && Under(k0, src) && Rebase(k0, src, dst) == k;
        RebaseUnder(k0, src, dst);
      }
    }
    kept + moved
  }

  // ---------------------------------------------------------------------
  // The file steps as functions of the contents before

  /** Read a file, replace the first occurrence of `pat`, write it back;
      reading a missing file throws. */
  function RewriteFile(t: Tree, path: string, pat: string, rep: string): (o: Outcome)
    ensures o.Threw? <==> path !in t.files
    ensures o.Threw? ==> o.tree == t
    ensures o.Returned? ==> o.tree == t.(files := t.files[path := ReplaceFirst(t.files[path], pat, rep)])
  {
    if path in t.files then Returned(t.(files := t.files[path := ReplaceFirst(t.files[path], pat, rep)]))
    else Threw(t)
  }

  /** handlePublicIndexHtmlTitle */
  function TitleAction(t: Tree, projectName: string): Outcome {
    RewriteFile(t, IndexHtmlPath, TitlePlaceholder, TitleText(projectName))
  }

  /** createDemoPage: writes the page, creating its directory. */
  function DemoPageAction(t: Tree, projectName: string, domin: string, projectType: ProjectType): Outcome {
    Returned(t.(files := t.files[DemoPagePath(projectType, domin) := DemoContent(projectName)]))
  }

  /** createDemoRoute: writes the route file, then overwrites the
      aggregate index of the project type. */
  function DemoRouteAction(t: Tree, domin: string, projectType: ProjectType): Outcome {
    Returned(t.(files := t.files[RouteFilePath(projectType, domin) := RouteContent(projectType, domin)]
                                [RouteIndexPath(projectType) := RouteIndexContent(projectType, domin)]))
  }

  /** handleAntdPrefixCls */
  function PrefixClsAction(t: Tree, prefixCls: string): Outcome {
    RewriteFile(t, ProjectConfigPath, PrefixClsPlaceholder, PrefixClsText(prefixCls))
  }

  /** handlePublicPath */
  function PublicPathAction(t: Tree, publicPath: string): Outcome {
    RewriteFile(t, BuildConfigPath, PublicPathPlaceholder, PublicPathText(publicPath))
  }

  /** handlePackageJson: parse, edit, write back. */
  function PackageJsonAction(t: Tree, projectName: string, devPort: string,
                             cloudtBranch: string, stdShareBranch: string): Outcome {
    if t.manifest.None? then Threw(t)
    else match EditManifest(t.manifest.value, projectName, devPort, cloudtBranch, stdShareBranch)
      case None => Threw(t)
      case Some(m) => Returned(t.(manifest := Some(m)))
  }

  /** Whether `rename(2)` can move the template chart directory to
      `./chart/<name>`: the destination must lie outside the directory moved,
      and its parent directory must exist. That parent is `./chart`, which
      holds the template, unless the name has a `/`. */
  predicate ChartMovable(files: map<string, string>, projectName: string) {
    && !Under(ChartDir(projectName), ChartTemplateDir)
    && match BeforeLast(projectName, '/')
       case None => true
       case Some(parent) => DirExists(files, ChartDir(parent))
  }

  /** handleChart: rename the chart directory, then rewrite the name in its
      Chart.yaml. With `shell.config.fatal` set, `shell.mv` throws when the
      template chart directory is missing; a rename that `rename(2)` refuses
      is dropped without an error and leaves the files as they were, and the
      read of Chart.yaml then throws when no such file is there. */
  function ChartAction(t: Tree, projectName: string): Outcome {
    if !DirExists(t.files, ChartTemplateDir) then Threw(t)
    else
      var files := if ChartMovable(t.files, projectName)
                   then MoveDir(t.files, ChartTemplateDir, ChartDir(projectName))
                   else t.files;
      RewriteFile(t.(files := files), ChartYamlPath(projectName), ChartNamePlaceholder, ChartNameText(projectName))
  }

  /** A placeholder rewrite changes only its own file, only at the first
      occurrence of its placeholder, and leaves the file as it was when the
      placeholder is absent; it throws exactly when the file is missing. */
  lemma RewriteFileEffect(t: Tree, path: string, pre: string, pat: string, post: string, rep: string)
    requires path in t.files && t.files[path] == pre + pat + post
    requires forall j :: 0 <= j < |pre| ==> !OccursAt(pre + pat + post, pat, j)
    ensures RewriteFile(t, path, pat, rep) == Returned(t.(files := t.files[path := pre + rep + post]))
  {
    ReplaceFirstAt(pre, pat, post, rep);
  }

  lemma RewriteFileWithoutPlaceholder(t: Tree, path: string, pat: string, rep: string)
    requires path in t.files && forall j :: !OccursAt(t.files[path], pat, j)
    ensures RewriteFile(t, path, pat, rep) == Returned(t)
  {
    ReplaceFirstAbsent(t.files[path], pat, rep);
    assert t.files[path := t.files[path]] == t.files;
  }

  /** When the rename can be done, the chart step carries every chart file
      over to the new directory and rewrites the first `name:` placeholder
      of the moved Chart.yaml; files outside both chart directories are not
      touched. */
  lemma ChartActionEffect(t: Tree, projectName: string)
    requires ChartTemplateDir + "/Chart.yaml" in t.files
    requires ChartMovable(t.files, projectName)
    ensures var o := ChartAction(t, projectName);
            && o.Returned?
            && o.tree.manifest == t.manifest
            && o.tree.files[ChartYamlPath(projectName)]
                 == ReplaceFirst(t.files[ChartTemplateDir + "/Chart.yaml"], ChartNamePlaceholder, ChartNameText(projectName))
            && (forall k :: k in t.files && !Under(k, ChartTemplateDir) && !Under(k, ChartDir(projectName))
                  ==> k in o.tree.files && o.tree.files[k] == t.files[k])
  {
    var yaml := ChartTemplateDir + "/Chart.yaml";
    var dst := ChartDir(projectName);
    ChartYamlUnder(projectName);
    assert DirExists(t.files, ChartTemplateDir);
    var moved := t.(files := MoveDir(t.files, ChartTemplateDir, dst));
    assert ChartYamlPath(projectName) in moved.files;
    assert moved.files[ChartYamlPath(projectName)] == t.files[yaml];
  }

  /** The template chart directory can always be renamed to a name
      without `/`: its parent is `./chart`, and it is not inside the template
      directory. */
  lemma ChartMovableWithoutSlash(files: map<string, string>, projectName: string)
    requires '/' !in projectName
    ensures ChartMovable(files, projectName)
  {
    var dst := ChartDir(projectName);
    assert (ChartTemplateDir + "/")[|ChartTemplateDir|] == '/';
    assert |dst| > |ChartTemplateDir| ==> dst[|ChartTemplateDir|] == projectName[|ChartTemplateDir| - 8] != '/';
  }

  /** For a name with a `/` whose parent directory under `./chart` does not
      exist, the rename is refused, Chart.yaml is not found at its new place,
      and the chart step throws with the files as they were. */
  lemma ChartActionThrowsWithoutParent(t: Tree, projectName: string)
    requires BeforeLast(projectName, '/').Some?
    requires !DirExists(t.files, ChartDir(BeforeLast(projectName, '/').value))
    ensures ChartAction(t, projectName) == Threw(t)
  {
    var parent := BeforeLast(projectName, '/').value;
    var yaml := ChartYamlPath(projectName);
    assert projectName[..|parent| + 1] == parent + "/";
    assert yaml[..|ChartDir(parent)| + 1] == "./chart/" + projectName[..|parent| + 1];
    assert Under(yaml, ChartDir(parent));
  }

  /** `yst-a/b-web-support` has one `/`, after `yst-a`. */
  lemma SlashNameParent()
    ensures BeforeLast("yst-a/b-web-support", '/') == Some("yst-a")
  {
    var name := "yst-a/b-web-support";
    assert name[5] == '/';
    assert '/' in name;
    assert forall i :: 0 <= i < |name| && i != 5 ==> name[i] != '/';
    var p := BeforeLast(name, '/').value;
    assert name[|p|] == '/';
    assert |p| == 5;
    assert p == name[..5] == "yst-a";
  }

  /** `yst-a/b-web-support` is `yst-`, the short name `a/b`, `-web-` and
      the domain word `support`. */
  lemma SlashNameAccepted()
    ensures ValidateProjectName(Project, Auto, "yst-a/b-web-support").Accepted?
  {
    var name := "yst-a/b-web-support";
    assert IsDotPlus("a/b") && IsDomainWord("support");
    assert name == ProjectPrefix + "a/b" + WebInfix + "support";
    assert ProjectAutoPattern(name);
  }

  /** A name the project rule accepts in auto mode can hold a `/`; for it
      the chart step throws unless `./chart/yst-a` already exists. */
  lemma AcceptedNameWithSlashThrows(t: Tree, projectName: string)
    requires projectName == "yst-a/b-web-support"
    requires !DirExists(t.files, ChartDir("yst-a"))
    ensures ValidateProjectName(Project, Auto, projectName).Accepted?
    ensures ChartAction(t, projectName) == Threw(t)
  {
    SlashNameAccepted();
    SlashNameParent();
    assert BeforeLast(projectName, '/').value == "yst-a";
    ChartActionThrowsWithoutParent(t, projectName);
  }

  /** Where Chart.yaml lies before and after the move. */
  lemma ChartYamlUnder(projectName: string)
    ensures Under(ChartTemplateDir + "/Chart.yaml", ChartTemplateDir)
    ensures Under(ChartYamlPath(projectName), ChartDir(projectName))
    ensures Rebase(ChartTemplateDir + "/Chart.yaml", ChartTemplateDir, ChartDir(projectName)) == ChartYamlPath(projectName)
  {
    var yaml := ChartTemplateDir + "/Chart.yaml";
    assert yaml[..|ChartTemplateDir| + 1] == ChartTemplateDir + "/";
    assert yaml[|ChartTemplateDir|..] == "/Chart.yaml";
    var p := ChartYamlPath(projectName);
    assert p[..|ChartDir(projectName)| + 1] == ChartDir(projectName) + "/";
  }

  /** The other project type. */
  function OtherType(projectType: ProjectType): (o: ProjectType)
    ensures o != projectType
  {
    if projectType == Standard then Project else Standard
  }

  /** The demo page step writes the page of its project type and nothing
      else, and cannot throw. */
  lemma DemoPageWritesOwnFile(t: Tree, projectName: string, domin: string, projectType: ProjectType)
    ensures var page := DemoPageAction(t, projectName, domin, projectType);
            && page.Returned? && page.tree.manifest == t.manifest
            && DemoPagePath(projectType, domin) in page.tree.files
            && page.tree.files[DemoPagePath(projectType, domin)] == DemoContent(projectName)
            && (forall k :: k != DemoPagePath(projectType, domin) ==> SameAt(t.files, page.tree.files, k))
  {
  }

  /** The route step writes the route file and the aggregate index of its
      project type, and keeps every other file, among them the aggregate
      index of the other project type; it cannot throw. */
  lemma DemoRouteWritesOwnFiles(t: Tree, domin: string, projectType: ProjectType)
    ensures var route := DemoRouteAction(t, domin, projectType);
            var file, index := RouteFilePath(projectType, domin), RouteIndexPath(projectType);
            && route.Returned? && route.tree.manifest == t.manifest
            && file in route.tree.files && index in route.tree.files
            && route.tree.files[file] == RouteContent(projectType, domin)
            && route.tree.files[index] == RouteIndexContent(projectType, domin)
            && (forall k :: k != file && k != index ==> SameAt(t.files, route.tree.files, k))
            && SameAt(t.files, route.tree.files, RouteIndexPath(OtherType(projectType)))
  {
    var file, index := RouteFilePath(projectType, domin), RouteIndexPath(projectType);
    var other := RouteIndexPath(OtherType(projectType));
    assert file[17] != other[17] && index[17] != other[17];
    assert |index| < |file|;
  }

  // ---------------------------------------------------------------------
  // The directory as the source changes it

  class ProjectDir {
    var present: bool
    var files: map<string, string>
    var manifest: Option<Manifest>

    function Contents(): Tree
      reads this
    {
      Tree(files, manifest)
    }

    function State(): Dir
      reads this
    {
      if present then Present(Contents()) else Absent
    }

    /** No project directory yet. */
    constructor ()
      ensures State() == Absent && files == map[] && manifest == None
    {
      present, files, manifest := false, map[], None;
    }

    /** The template clone has arrived. */
    method Fill(template: Tree)
      modifies this
      ensures State() == Present(template)
    {
      present, files, manifest := true, template.files, template.manifest;
    }

    /** clearProject: `rm -rf` of the project root. */
    method Clear()
      modifies this
      ensures State() == Absent && files == map[] && manifest == None
    {
      present, files, manifest := false, map[], None;
    }

    method HandlePublicIndexHtmlTitle(projectName: string) returns (threw: bool)
      modifies this
      ensures present == old(present)
      ensures OutcomeOf(threw, Contents()) == TitleAction(old(Contents()), projectName)
    {
      threw := RewritePlaceholder(IndexHtmlPath, TitlePlaceholder, TitleText(projectName));
    }

    method CreateDemoPage(projectName: string, domin: string, projectType: ProjectType) returns (threw: bool)
      modifies this
      ensures present == old(present)
      ensures OutcomeOf(threw, Contents()) == DemoPageAction(old(Contents()), projectName, domin, projectType)
    {
      var demoPagePath := DemoPagePath(projectType, domin);
      files := files[demoPagePath := DemoContent(projectName)];
      threw := false;
    }

    method CreateDemoRoute(domin: string, projectType: ProjectType) returns (threw: bool)
      modifies this
      ensures present == old(present)
      ensures OutcomeOf(threw, Contents()) == DemoRouteAction(old(Contents()), domin, projectType)
    {
      files := files[RouteFilePath(projectType, domin) := RouteContent(projectType, domin)];
      files := files[RouteIndexPath(projectType) := RouteIndexContent(projectType, domin)];
      threw := false;
    }

    method HandleAntdPrefixCls(prefixCls: string) returns (threw: bool)
      modifies this
      ensures present == old(present)
      ensures OutcomeOf(threw, Contents()) == PrefixClsAction(old(Contents()), prefixCls)
    {
      threw := RewritePlaceholder(ProjectConfigPath, PrefixClsPlaceholder, PrefixClsText(prefixCls));
    }

    method HandlePublicPath(publicPath: string) returns (threw: bool)
      modifies this
      ensures present == old(present)
      ensures OutcomeOf(threw, Contents()) == PublicPathAction(old(Contents()), publicPath)
    {
      threw := RewritePlaceholder(BuildConfigPath, PublicPathPlaceholder, PublicPathText(publicPath));
    }

    /** The parsed object is changed field by field and written back only
        when every change went through. */
    method HandlePackageJson(projectName: string, devPort: string, cloudtBranch: string, stdShareBranch: string)
      returns (threw: bool)
      modifies this
      ensures present == old(present)
      ensures OutcomeOf(threw, Contents())
              == PackageJsonAction(old(Contents()), projectName, devPort, cloudtBranch, stdShareBranch)
    {
      if manifest.None? {
        return true;
      }
      var jsonObj := manifest.value;
      jsonObj := jsonObj.(name := Some(projectName));
      if jsonObj.scripts.None? || "start" !in jsonObj.scripts.value {
        return true;
      }
      var scripts := jsonObj.scripts.value;
      scripts := scripts["start" := ReplaceFirst(scripts["start"], DevPortPlaceholder, devPort)];
      if cloudtBranch != "" {
        scripts := scripts["cloudt-add" := CloudtCommand("add", cloudtBranch)];
        scripts := scripts["cloudt-pull" := CloudtCommand("pull", cloudtBranch)];
      }
      if stdShareBranch != "" {
        scripts := scripts["stdshare-add" := StdShareCommand("add", stdShareBranch)];
        scripts := scripts["stdshare-pull" := StdShareCommand("pull", stdShareBranch)];
      }
      jsonObj := jsonObj.(scripts := Some(scripts));
      manifest := Some(jsonObj);
      threw := false;
    }

    method HandleChart(projectName: string) returns (threw: bool)
      modifies this
      ensures present == old(present)
      ensures OutcomeOf(threw, Contents()) == ChartAction(old(Contents()), projectName)
    {
      if !DirExists(files, ChartTemplateDir) {
        return true;
      }
      if ChartMovable(files, projectName) {
        files := MoveDir(files, ChartTemplateDir, ChartDir(projectName));
      }
      threw := RewritePlaceholder(ChartYamlPath(projectName), ChartNamePlaceholder, ChartNameText(projectName));
    }

    /** readFileSync, replace, writeFileSync on one file. */
    method RewritePlaceholder(path: string, pat: string, rep: string) returns (threw: bool)
      modifies this
      ensures present == old(present)
      ensures OutcomeOf(threw, Contents()) == RewriteFile(old(Contents()), path, pat, rep)
    {
      if path !in files {
        return true;
      }
      var content := files[path];
      content := ReplaceFirst(content, pat, rep);
      files := files[path := content];
      threw := false;
    }
  }
}
