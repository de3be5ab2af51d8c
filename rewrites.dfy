/** What the provisioning steps write into the template copy
    (src/create-sub/index.js): the placeholder texts and their
    replacements, the `package.json` edit on a parsed manifest, and the
    paths and contents of the generated demo page and route files. */
module Rewrites {
  import opened Strings
  import opened UserInput

  // ---------------------------------------------------------------------
  // Files of the template, as paths relative to the project root

  const IndexHtmlPath: string := "./public/index.html"
  const ProjectConfigPath: string := "./src/project.config.ts"
  const BuildConfigPath: string := "./build.config.js"
  const ChartTemplateDir: string := "./chart/cloudt-web-ice2-template"

  function ChartDir(projectName: string): string {
    "./chart/" + projectName
  }

  function ChartYamlPath(projectName: string): string {
    ChartDir(projectName) + "/Chart.yaml"
  }

  // ---------------------------------------------------------------------
  // Placeholders and what replaces them

  const TitlePlaceholder: string := "<title>cloudt-web-ice2-template</title>"
  const PrefixClsPlaceholder: string := "const prefixCls = 'cloudt-tmpl';"
  const PublicPathPlaceholder: string := "publicPath: '/template/',"
  const ChartNamePlaceholder: string := "name: cloudt-web-ice2-template"
  /** `replace(3030, devPort)` converts the number to this string. */
  const DevPortPlaceholder: string := "3030"

  function TitleText(projectName: string): string {
    "<title>" + projectName + "</title>"
  }

  function PrefixClsText(prefixCls: string): string {
    "const prefixCls = '" + prefixCls + "';"
  }

  function PublicPathText(publicPath: string): string {
    "publicPath: '" + publicPath + "',"
  }

  function ChartNameText(projectName: string): string {
    "name: " + projectName
  }

  // ---------------------------------------------------------------------
  // package.json

  /** A parsed `package.json`: its `name`, its `scripts` object (None when
      the key is absent) and the remaining top-level keys, kept opaque. */
  datatype Manifest = Manifest(
    name: Option<string>,
    scripts: Option<map<string, string>>,
    other: map<string, string>)

  const CloudtRepo: string := "git@code.elitescloud.com:cloudt-web-suites/cloudt.git"
  const StdShareRepo: string := "git@code.elitescloud.com:el-yst-buzi-std/std-share.git"

  function SubtreeCommand(op: string, prefix: string, repo: string, branch: string): string {
    "git subtree " + op + " --prefix=" + prefix + " " + repo + " " + branch + " --squash"
  }

  function CloudtCommand(op: string, branch: string): string {
    SubtreeCommand(op, "src/cloudt", CloudtRepo, branch)
  }

  function StdShareCommand(op: string, branch: string): string {
    SubtreeCommand(op, "src/std-share", StdShareRepo, branch)
  }

  /** The script keys `handlePackageJson` may write. */
  predicate IsManagedScript(k: string) {
    k == "start" || k == "cloudt-add" || k == "cloudt-pull" || k == "stdshare-add" || k == "stdshare-pull"
  }

  /** Key `k` is absent from both maps or bound to the same value in both. */
  predicate SameAt(m: map<string, string>, m': map<string, string>, k: string) {
    (k in m <==> k in m') && (k in m ==> m[k] == m'[k])
  }

  /** The edit `handlePackageJson` makes to the parsed manifest. None stands
      for the TypeError raised when `scripts` or `scripts.start` is missing. */
  function EditManifest(m: Manifest, projectName: string, devPort: string,
                        cloudtBranch: string, stdShareBranch: string): (r: Option<Manifest>)
    ensures r.None? <==> m.scripts.None? || "start" !in m.scripts.value
    ensures r.Some? ==> r.value.name == Some(projectName) && r.value.other == m.other && r.value.scripts.Some?
    ensures r.Some? ==>
      var s, s' := m.scripts.value, r.value.scripts.value;
      && "start" in s'
      && s'["start"] == ReplaceFirst(s["start"], DevPortPlaceholder, devPort)
      && (cloudtBranch != "" ==>
            && "cloudt-add" in s' && s'["cloudt-add"] == CloudtCommand("add", cloudtBranch)
            && "cloudt-pull" in s' && s'["cloudt-pull"] == CloudtCommand("pull", cloudtBranch))
      && (cloudtBranch == "" ==> SameAt(s, s', "cloudt-add") && SameAt(s, s', "cloudt-pull"))
      && (stdShareBranch != "" ==>
            && "stdshare-add" in s' && s'["stdshare-add"] == StdShareCommand("add", stdShareBranch)
            && "stdshare-pull" in s' && s'["stdshare-pull"] == StdShareCommand("pull", stdShareBranch))
      && (stdShareBranch == "" ==> SameAt(s, s', "stdshare-add") && SameAt(s, s', "stdshare-pull"))
      && (forall k :: !IsManagedScript(k) ==> SameAt(s, s', k))
  {
    if m.scripts.None? || "start" !in m.scripts.value then None
    else
      var s := m.scripts.value;
      var s1 := s["start" := ReplaceFirst(s["start"], DevPortPlaceholder, devPort)];
      var s2 :=
        if cloudtBranch != "" then
          s1["cloudt-add" := CloudtCommand("add", cloudtBranch)]["cloudt-pull" := CloudtCommand("pull", cloudtBranch)]
        else s1;
      var s3 :=
        if stdShareBranch != "" then
          s2["stdshare-add" := StdShareCommand("add", stdShareBranch)]["stdshare-pull" := StdShareCommand("pull", stdShareBranch)]
        else s2;
      Some(Manifest(Some(projectName), Some(s3), m.other))
  }

  /** With both branches empty no subtree script is added: the script keys
      of the result are those of the input. */
  lemma EmptyBranchesAddNoScripts(m: Manifest, projectName: string, devPort: string)
    requires EditManifest(m, projectName, devPort, "", "").Some?
    ensures EditManifest(m, projectName, devPort, "", "").value.scripts.value.Keys == m.scripts.value.Keys
  {
    var s, s' := m.scripts.value, EditManifest(m, projectName, devPort, "", "").value.scripts.value;
    forall k ensures k in s' <==> k in s {
      assert SameAt(s, s', k) || k == "start";
    }
  }

  // ---------------------------------------------------------------------
  // Demo page and route files

  /** The directory segment for a project type. */
  function TypeSegment(projectType: ProjectType): (seg: string)
    ensures seg == "standard" <==> projectType.Standard?
    ensures seg == "project" <==> projectType.Project?
  {
    match projectType
    case Standard => assert "standard"[1] != "project"[1]; "standard"
    case Project => assert "standard"[1] != "project"[1]; "project"
  }

  function DemoPageDir(projectType: ProjectType, domin: string): string {
    "./src/pages/" + TypeSegment(projectType) + "/" + domin + "/Demo"
  }

  function DemoPagePath(projectType: ProjectType, domin: string): string {
    DemoPageDir(projectType, domin) + "/index.tsx"
  }

  /** The module the route imports the page from; `@` is the `src` alias. */
  function DemoImportPath(projectType: ProjectType, domin: string): string {
    "@/pages/" + TypeSegment(projectType) + "/" + domin + "/Demo"
  }

  function RouteFileDir(projectType: ProjectType, domin: string): string {
    "./src/routeFiles/" + TypeSegment(projectType) + "/" + domin
  }

  function RouteFilePath(projectType: ProjectType, domin: string): string {
    RouteFileDir(projectType, domin) + "/index.ts"
  }

  function RouteIndexDir(projectType: ProjectType): string {
    "./src/routeFiles/" + TypeSegment(projectType)
  }

  /** The aggregate route index of the project type, which is overwritten. */
  function RouteIndexPath(projectType: ProjectType): string {
    RouteIndexDir(projectType) + "/index.ts"
  }

  /** The generated files are written line by line below; the text is the
      lines joined with `\n`, with no newline after the last one. */
  function DemoContent(projectName: string): string {
    Join([
      "export default function Demo() {",
      "return (",
      "    <div>",
      "      " + projectName + "-demo",
      "    </div>",
      "  )",
      "}"], '\n')
  }

  function RouteContent(projectType: ProjectType, domin: string): string {
    Join([
      "import { lazy } from 'ice';",
      "const " + domin + "Routers = [",
      "  {",
      "    path: '/" + domin + "',",
      "    pageConfig: { title: '" + domin + "', key: '" + domin + "' },",
      "    children: [",
      "      {",
      "        path: '/demo',",
      "        pageConfig: { title: 'Demo', keepAlive: true, key: '" + domin + "-demo' },",
      "        component: lazy(() => import('" + DemoImportPath(projectType, domin) + "')),",
      "      },",
      "    ],",
      "  },",
      "];",
      "",
      "export default " + domin + "Routers;"], '\n')
  }

  /** The lines of the aggregate route index of the project type. */
  function RouteIndexLines(projectType: ProjectType, domin: string): seq<string> {
    if projectType == Standard then
      [ "import platform from './platform';",
        "import " + domin + " from './" + domin + "';",
        "export default [...platform, ..." + domin + "];"]
    else
      [ "// import mes from './mes'",
        "import " + domin + " from './" + domin + "';",
        "export default [",
        "    // ...mes",
        "    ..." + domin,
        "];"]
  }

  function RouteIndexContent(projectType: ProjectType, domin: string): string {
    Join(RouteIndexLines(projectType, domin), '\n')
  }

  /** The route's lazy import names the demo page's directory once `@` is
      read as `./src`. */
  lemma DemoImportResolvesToPage(projectType: ProjectType, domin: string)
    ensures "./src" + DemoImportPath(projectType, domin)[1..] == DemoPageDir(projectType, domin)
  {
  }

  /** For a domain word, the second line of the aggregate index imports
      `./<domin>` relative to the index's directory, which is the directory
      of the new route file. */
  lemma RouteIndexImportsRouteFile(projectType: ProjectType, domin: string)
    requires IsDomainWord(domin)
    ensures var lines := Split(RouteIndexContent(projectType, domin), '\n');
            && |lines| >= 2
            && lines[1] == "import " + domin + " from './" + domin + "';"
            && RouteIndexDir(projectType) + "/" + domin == RouteFileDir(projectType, domin)
  {
    RouteIndexLinesSingle(projectType, domin);
    SplitJoin(RouteIndexLines(projectType, domin), '\n');
  }

  /** No line of the aggregate index holds a line break. */
  lemma RouteIndexLinesSingle(projectType: ProjectType, domin: string)
    requires '\n' !in domin
    ensures var lines := RouteIndexLines(projectType, domin);
            forall i :: 0 <= i < |lines| ==> '\n' !in lines[i]
  {
    if projectType == Standard {
      StandardIndexLinesSingle(domin);
    } else {
      ProjectIndexLinesSingle(domin);
    }
  }

  lemma StandardIndexLinesSingle(domin: string)
    requires '\n' !in domin
    ensures var lines := RouteIndexLines(Standard, domin);
            forall i :: 0 <= i < |lines| ==> '\n' !in lines[i]
  {
    var i := "import " + domin + " from './" + domin + "';";
    var e := "export default [...platform, ..." + domin + "];";
    assert '\n' !in i && '\n' !in e;
    assert RouteIndexLines(Standard, domin) == ["import platform from './platform';", i, e];
  }

  lemma ProjectIndexLinesSingle(domin: string)
    requires '\n' !in domin
    ensures var lines := RouteIndexLines(Project, domin);
            forall i :: 0 <= i < |lines| ==> '\n' !in lines[i]
  {
    var i := "import " + domin + " from './" + domin + "';";
    var e := "    ..." + domin;
    assert '\n' !in i && '\n' !in e;
    assert RouteIndexLines(Project, domin) == ["// import mes from './mes'", i, "export default [", "    // ...mes", e, "];"];
  }

  /** The generated files are at paths of their own: distinct from each
      other, from the files the other steps rewrite, and outside `./chart/`. */
  lemma GeneratedPathsDistinct(projectType: ProjectType, domin: string, projectName: string)
    ensures var generated := [DemoPagePath(projectType, domin), RouteFilePath(projectType, domin),
                              RouteIndexPath(projectType)];
            && generated[0] != generated[1] && generated[0] != generated[2] && generated[1] != generated[2]
            && (forall i :: 0 <= i < 3 ==>
                  && generated[i] != IndexHtmlPath && generated[i] != ProjectConfigPath
                  && generated[i] != BuildConfigPath && !HasPrefix(generated[i], "./chart/"))
  {
    var page, route, index := DemoPagePath(projectType, domin), RouteFilePath(projectType, domin),
                              RouteIndexPath(projectType);
    assert page[6] == 'p' && route[6] == 'r' && index[6] == 'r';
    assert page[7] == 'a' && ProjectConfigPath[7] == 'r';
    assert page[2] == 's' && route[2] == 's' && index[2] == 's';
    var n := |"./src/routeFiles/" + TypeSegment(projectType) + "/"|;
    assert |route| == n + |domin| + 9 && |index| == n + 8;
  }
}
