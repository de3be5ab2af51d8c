# cloudt-cli `create-sub`, modelled in Dafny

`create-sub` provisions a new front-end sub-project from a template. It
has two parts:

- `src/create-sub/getUserInput.js` asks the operator for a project type
  (`standard` or `project`), a create mode (`auto` or `manu`), a project
  name, and in manual mode a CSS prefix and a public path. It also asks for
  a dev port, two optional library branches and an install flag. Each
  answer is checked by its prompt's validate callback. The module then
  derives `domin` (the business-domain word), `prefixCls` and `publicPath`.
- `src/create-sub/index.js` runs `createSub`:
  1. It clones the template.
  2. It runs ten steps in a fixed order inside one `try`: git init, two
     optional `git subtree add`s, a title rewrite, the demo page file, the
     route file, the prefix class, the public path, `package.json` and the
     deployment chart.
  3. It removes the project directory when a step throws.
  4. It runs `npm i` when no step threw, and does not stop on its failure.

The model has five modules.

- `Strings` (`strings.dfy`) holds the JavaScript string operations the
  code relies on: `indexOf`, `replace` with a string pattern (first
  occurrence only), `split(...).pop()` and `replaceAll` of one character.
- `UserInput` (`user_input.dfy`) covers the questionnaire.
  - The five regular expressions are written twice. A ghost predicate reads
    each one as a concatenation of its pieces, and an executable matcher is
    proved equivalent to it in both directions.
  - The dev-port rule is the ECMAScript `Number` conversion failing to give
    `NaN`.
  - `domin`, `prefixCls` and `publicPath` are derived in both modes.
  - `GetUserInput` builds the record that `createSub` receives.
- `Rewrites` (`rewrites.dfy`) holds what the steps write:
  - the placeholder texts and their replacements;
  - the `package.json` edit on a parsed manifest;
  - the paths and texts of the generated demo page and route files.
- `Workspace` (`project_dir.dfy`) models the project directory.
  - Its contents are a map from relative path to text, together with the
    parsed `package.json`. The directory as a whole is absent or present.
  - Each file step is a pure action on the contents. It returns or throws,
    and it keeps whatever it wrote before throwing.
  - The class `ProjectDir` holds the directory as mutable fields. Its
    handler methods update those fields as the source does, and each is
    proved to move the contents exactly as its action says.
- `CreateSub` (`create_sub.dfy`) models `tryExec` and the pipeline.
  - `Provision` is the whole run as a function of the step behaviour. It is
    generic in what the steps do, as `tryExec` is generic in the function
    it calls. `CreateSubSpec` instantiates it with the real steps.
  - The method `CreateSub` works on a `ProjectDir` and keeps the
    `createSuccess`-style control flow of the source. It is proved to
    produce exactly the log and the final directory of `CreateSubSpec`.

External commands appear as booleans in `Externals`: the template clone,
the git commands of `initGit`, each `git subtree add`, and `npm i`. Each
boolean says whether that command succeeds. The run's log of outcomes is
a sequence of `Event`s: the download result, one entry per step with its
status, the success message, the removal of the project root (which
prints nothing in the source), and the install result.

Three behaviours of the code are easy to misread, and the model keeps them:

- The code has ten steps, `initGit` included.
- The code accepts any numeric dev port, not only positive integers.
- The code never reads the `autoNpmInstall` answer (`index.js:258`).
  When every step returned, `npm i` runs whatever the operator answered.
  `AutoNpmInstallIgnored` states this.

## Model

| member | source | states |
|---|---|---|
| Strings.IndexOf | src/create-sub/index.js:125 | the position found holds an occurrence of the pattern and no earlier position does; None means the pattern occurs nowhere |
| Strings.ReplaceFirst | src/create-sub/index.js:125 | `replace` with a string pattern: the text up to the first occurrence, the replacement, and the rest; its properties are stated by `ReplaceFirstAt` and `ReplaceFirstAbsent` |
| Strings.ReplaceFirstAt | src/create-sub/index.js:186 | when the first occurrence is the one after `pre`, `replace` yields `pre + rep + post`, keeping any later occurrence |
| Strings.ReplaceFirstAbsent | src/create-sub/index.js:193 | without an occurrence of the pattern the text comes back unchanged |
| Strings.Split | src/create-sub/getUserInput.js:11 | `split('-')` gives at least one part, the parts joined with `-` give the input back, and no part contains `-` |
| Strings.JoinEndsWithLast | src/create-sub/getUserInput.js:11 | the joined text ends with the last part |
| Strings.SplitAtSeparator | src/create-sub/getUserInput.js:11 | a text containing the separator splits into at least two parts |
| Strings.LastSegment | src/create-sub/getUserInput.js:11 | `split('-').pop()`: the last part of `Split`; its properties are stated by `LastSegmentWhole` and `LastSegmentAfter` |
| Strings.SplitJoin | src/create-sub/index.js:168-178 | splitting the joined lines of a generated file at line breaks gives the lines back, when no line holds a line break |
| Strings.SplitAfterPart | src/create-sub/index.js:168-178 | splitting `a + sep + b` for a separator-free `a` gives `a` followed by the parts of `b` |
| Strings.BeforeLast | src/create-sub/index.js:225 | the text before the last `/` of a name, None exactly when the name has no `/`; no `/` follows the one found |
| Strings.BeforeLastSplits | src/create-sub/index.js:225 | the text before the last separator, the separator and the last segment make up the whole string |
| Strings.LastSegmentWhole | src/create-sub/getUserInput.js:11 | a text without `-` is its own single part and its own `pop()` |
| Strings.LastSegmentAfter | src/create-sub/getUserInput.js:11 | `pop()` of `pre + "-" + w` is `w` for a `w` without `-`, whatever `pre` is |
| Strings.RemoveAll | src/create-sub/getUserInput.js:16 | `replaceAll('/', '')` leaves no `/`, never grows the text, and changes nothing in a text without `/` |
| Strings.RemoveAllAppend | src/create-sub/getUserInput.js:16 | removing a character distributes over concatenation |
| UserInput.MatchesStandardAuto | src/create-sub/getUserInput.js:89-90 | executable test of `^yst-cloudt-web-(\w{2,10})$`; `StandardAutoMatches` proves it equal to the pattern |
| UserInput.MatchesStandardManu | src/create-sub/getUserInput.js:96-97 | executable test of `^yst-cloudt-web-.+$`; `StandardManuMatches` proves it equal to the pattern |
| UserInput.MatchesProjectAuto | src/create-sub/getUserInput.js:105-106 | executable test of `^yst-.+-web-(\w{2,10})$` that takes the domain word after the last `-`; `ProjectAutoMatches` proves it equal to the pattern |
| UserInput.MatchesProjectManu | src/create-sub/getUserInput.js:112-113 | executable test of `^yst-.+-web-.+$` at the first `-web-` after one character; `ProjectManuMatches` proves it equal to the pattern |
| UserInput.MatchesPublicPath | src/create-sub/getUserInput.js:137-138 | executable test of `^\/\w{2,10}\/$`; `PublicPathMatches` proves it equal to the pattern |
| UserInput.IsNumeric | src/create-sub/getUserInput.js:155 | `Number(input)` is not `NaN`: the trimmed input is empty or a StringNumericLiteral; `DevPortAcceptsDigits`, `DevPortAcceptsNegative` and `DevPortAcceptsBlank` state its cases |
| UserInput.StandardAutoMatches | src/create-sub/getUserInput.js:89-93 | the matcher accepts exactly `yst-cloudt-web-` followed by 2 to 10 word characters and nothing else |
| UserInput.StandardManuMatches | src/create-sub/getUserInput.js:96-100 | the matcher accepts exactly `yst-cloudt-web-` followed by at least one character other than a line terminator |
| UserInput.ProjectAutoSplits | src/create-sub/getUserInput.js:105 | a name the project/auto matcher accepts is `yst-`, some text, `-web-` and its last `-` segment |
| UserInput.ProjectAutoAccepts | src/create-sub/getUserInput.js:105 | every `yst-` + one or more characters + `-web-` + 2 to 10 word characters is accepted by the matcher |
| UserInput.ProjectAutoMatches | src/create-sub/getUserInput.js:105-109 | the matcher accepts a name iff it matches `^yst-.+-web-(\w{2,10})$` |
| UserInput.AllDotCharsSlice | src/create-sub/getUserInput.js:112 | a slice of a text without line terminators has none either |
| UserInput.AllDotCharsAround | src/create-sub/getUserInput.js:112 | `a + "-web-" + b` has no line terminator when `a` and `b` have none |
| UserInput.ProjectManuSplits | src/create-sub/getUserInput.js:112 | a name the project/manu matcher accepts splits at the first `-web-` after `yst-` and one character into two non-empty runs without line terminators |
| UserInput.ProjectManuAccepts | src/create-sub/getUserInput.js:112 | every `yst-` + `.+` + `-web-` + `.+` is accepted by the matcher |
| UserInput.ProjectManuMatches | src/create-sub/getUserInput.js:112-116 | the matcher accepts a name iff it matches `^yst-.+-web-.+$` |
| UserInput.PublicPathMatches | src/create-sub/getUserInput.js:137-141 | the matcher accepts exactly `/` + 2 to 10 word characters + `/` |
| UserInput.ValidateProjectName | src/create-sub/getUserInput.js:85-120 | the name prompt accepts a name iff it matches the regular expression of its project type and create mode |
| UserInput.ValidatePublicPath | src/create-sub/getUserInput.js:135-143 | the public-path prompt accepts exactly `^\/\w{2,10}\/$` |
| UserInput.ValidateDevPort | src/create-sub/getUserInput.js:154-159 | the port is refused iff it is empty or `Number` gives `NaN` for it |
| UserInput.DevPortAcceptsDigits | src/create-sub/getUserInput.js:155 | every non-empty run of decimal digits is accepted, `0` and values above 65535 included: there is no range check |
| UserInput.DevPortAcceptsNegative | src/create-sub/getUserInput.js:155 | a negative port is accepted |
| UserInput.DevPortAcceptsBlank | src/create-sub/getUserInput.js:155 | an answer of spaces only is accepted, because `Number` converts it to 0 |
| UserInput.BlankTrims | src/create-sub/getUserInput.js:155 | white-space trimming removes a run of spaces entirely |
| UserInput.DomainWordHasNoDash | src/create-sub/getUserInput.js:89 | a `\w{2,10}` word contains neither `-` nor `/` |
| UserInput.DomainWordIsDotPlus | src/create-sub/getUserInput.js:96 | a `\w{2,10}` word also matches `.+` |
| UserInput.DomainWordIsLastSegment | src/create-sub/getUserInput.js:11 | the last `-` segment of `pre + "-" + w` is the domain word `w` |
| UserInput.DeriveAuto | src/create-sub/getUserInput.js:10-14 | in auto mode `domin` is the last `-` segment of the name (so it has no `-`), `prefixCls` is `yst-` + `domin` and `publicPath` is `/` + `domin` + `/` |
| UserInput.DeriveManual | src/create-sub/getUserInput.js:15-16 | in manual mode `prefixCls` and `publicPath` are the answers and `domin` is the public path with every `/` removed |
| UserInput.AutoNameAcceptedInManualMode | src/create-sub/getUserInput.js:86-118 | for each project type, every name accepted in auto mode is accepted in manual mode |
| UserInput.StandardPrefixSplits | src/create-sub/getUserInput.js:89-105 | `yst-cloudt-web-` is `yst-`, `cloudt` and `-web-` |
| UserInput.StandardNameIsProjectName | src/create-sub/getUserInput.js:86-118 | a name the standard rule accepts is accepted by the project rule of the same mode |
| UserInput.DeriveAutoTrailingWord | src/create-sub/getUserInput.js:11 | a name ending in `-web-` and a domain word derives that word as `domin` |
| UserInput.DomainWordPublicPath | src/create-sub/getUserInput.js:137 | `/` + a domain word + `/` passes the public-path rule |
| UserInput.AutoDerivationOf | src/create-sub/getUserInput.js:10-14 | for `pre + "-web-" + w`, `domin` is `w`, the name ends in `-web-` + `domin`, and the derived public path passes the public-path rule |
| UserInput.StandardAutoDerivation | src/create-sub/getUserInput.js:10-14 | the auto derivation of `yst-cloudt-web-` + a domain word keeps its promises |
| UserInput.ProjectAutoDerivation | src/create-sub/getUserInput.js:10-14 | the auto derivation of `yst-` + text + `-web-` + a domain word keeps its promises |
| UserInput.AutoDerivationOfPattern | src/create-sub/getUserInput.js:10-14 | a name of either auto pattern derives a domain word, ends in `-web-` + `domin`, and gets a valid public path |
| UserInput.AutoDerivationFromAcceptedName | src/create-sub/getUserInput.js:10-14 | for a name the auto rule accepts, `domin` is exactly the trailing 2 to 10 word characters, and the derived `publicPath` passes the manual public-path rule |
| UserInput.ManualDerivationOf | src/create-sub/getUserInput.js:16 | stripping `/` from `/` + a domain word + `/` gives the word between the slashes |
| UserInput.ManualDerivationFromAcceptedPath | src/create-sub/getUserInput.js:15-16 | for an accepted public path, `domin` is the word between its slashes and the path is `/` + `domin` + `/` |
| UserInput.PublicPathExamples | src/create-sub/getUserInput.js:135-143 | `/support/` and `/su/` pass; `support/`, `/s/` and `/support` fail |
| UserInput.Derive | src/create-sub/getUserInput.js:9-17 | for accepted answers the derivation of the chosen mode gives a domain word `domin` and the public path `/` + `domin` + `/`; in auto mode the name ends in `-web-` + `domin` |
| UserInput.GetUserInput | src/create-sub/getUserInput.js:3-44 | a record is produced iff the name, the public path (manual mode only) and the port are accepted; it carries the answers and a `domin` that is a domain word, with `publicPath == "/" + domin + "/"`; in auto mode `domin` is the last `-` segment of the name, the name ends in `-web-` + `domin`, and `prefixCls == "yst-" + domin`; in manual mode `prefixCls` and `publicPath` are the answers |
| Rewrites.EditManifest | src/create-sub/index.js:197-221 | the edit fails exactly when `scripts` or `scripts.start` is missing; otherwise `name` becomes the project name, the first `3030` of `start` becomes the port, the `cloudt-*` and `stdshare-*` scripts are set to the subtree commands when their branch is non-empty and kept as they were when it is empty, and every other key and script is unchanged |
| Rewrites.EmptyBranchesAddNoScripts | src/create-sub/index.js:203-218 | with both branches empty the script keys stay those of the input |
| Rewrites.TypeSegment | src/create-sub/index.js:130 | the path segment is `standard` iff the type is standard and `project` iff it is project |
| Rewrites.DemoImportResolvesToPage | src/create-sub/index.js:130-145 | the route's lazy import, with `@` read as `./src`, is the demo page's directory |
| Rewrites.RouteIndexImportsRouteFile | src/create-sub/index.js:146-179 | for a domain word, the second line of the aggregate index is `import <domin> from './<domin>';`, and `./<domin>` taken from the index's directory is the directory of the new route file |
| Rewrites.RouteIndexLinesSingle | src/create-sub/index.js:168-178 | no line of either aggregate index holds a line break when `domin` holds none |
| Rewrites.DemoPagePath | src/create-sub/index.js:130-131 | `./src/pages/<type>/<domin>/Demo/index.tsx`; `GeneratedPathsDistinct` and `DemoImportResolvesToPage` state its properties |
| Rewrites.RouteFilePath | src/create-sub/index.js:146-147 | `./src/routeFiles/<type>/<domin>/index.ts`; `GeneratedPathsDistinct` and `RouteIndexImportsRouteFile` state its properties |
| Rewrites.RouteIndexPath | src/create-sub/index.js:171-179 | `./src/routeFiles/<type>/index.ts`; `GeneratedPathsDistinct` and `DemoRouteWritesOwnFiles` state its properties |
| Rewrites.DemoContent | src/create-sub/index.js:132-138 | the demo page's lines joined with line breaks; `DemoPageWritesOwnFile` states where it is written |
| Rewrites.RouteContent | src/create-sub/index.js:148-163 | the route file's lines joined with line breaks, importing the page lazily from `DemoImportPath`; `DemoImportResolvesToPage` states that it names the page |
| Rewrites.RouteIndexLines | src/create-sub/index.js:167-179 | the lines of the aggregate index of each project type; `RouteIndexImportsRouteFile` states its import |
| Rewrites.RouteIndexContent | src/create-sub/index.js:167-179 | the aggregate index's lines joined with line breaks; `RouteIndexImportsRouteFile` states its import |
| Rewrites.GeneratedPathsDistinct | src/create-sub/index.js:130-179 | the demo page, the route file and the aggregate index are three different paths, none of them a file another step rewrites and none under `./chart/` |
| Workspace.RebaseInjective | src/create-sub/index.js:225 | moving a directory never maps two files onto one path |
| Workspace.RebaseUnder | src/create-sub/index.js:225 | a file under the source directory is moved to a place under the destination |
| Workspace.MoveDir | src/create-sub/index.js:225 | `mv` puts every file under the source directory at the same place under the destination, keeps every other file, and adds nothing else |
| Workspace.TitleAction | src/create-sub/index.js:122-127 | `RewriteFile` of `./public/index.html` with the title placeholder; `RewriteFile`, `RewriteFileEffect` and `ProjectDir.HandlePublicIndexHtmlTitle` state it |
| Workspace.DemoPageAction | src/create-sub/index.js:129-142 | writes the demo page and returns; `DemoPageWritesOwnFile` states it |
| Workspace.DemoRouteAction | src/create-sub/index.js:144-181 | writes the route file, then the aggregate index, and returns; `DemoRouteWritesOwnFiles` states it |
| Workspace.PrefixClsAction | src/create-sub/index.js:183-188 | `RewriteFile` of `./src/project.config.ts` with the prefix-class placeholder; `RewriteFile` and `RewriteFileEffect` state it |
| Workspace.PublicPathAction | src/create-sub/index.js:190-195 | `RewriteFile` of `./build.config.js` with the public-path placeholder; `RewriteFile` and `RewriteFileEffect` state it |
| Workspace.PackageJsonAction | src/create-sub/index.js:197-221 | throws when the manifest is missing or `EditManifest` fails, and otherwise stores the edited manifest; `EditManifest` states the edit |
| Workspace.ChartMovable | src/create-sub/index.js:225 | whether `rename(2)` can move the template chart to `./chart/<projectName>`: the destination is outside the template directory and its parent exists |
| Workspace.ChartAction | src/create-sub/index.js:223-230 | throws when the template chart is missing, renames it when the rename can be done, then rewrites `Chart.yaml` at the new place; `ChartActionEffect` and `ChartActionThrowsWithoutParent` state it |
| Workspace.RewriteFile | src/create-sub/index.js:122-127 | read, replace, write: it throws exactly when the file is missing, and then the tree is unchanged; otherwise only that file changes, to its text with the first occurrence replaced |
| Workspace.RewriteFileEffect | src/create-sub/index.js:186 | a placeholder rewrite replaces exactly the first occurrence and keeps the text before and after it |
| Workspace.RewriteFileWithoutPlaceholder | src/create-sub/index.js:193 | a file without the placeholder is left exactly as it was |
| Workspace.ChartActionEffect | src/create-sub/index.js:223-230 | with the template chart present and a rename that can be done, the chart step returns, carries Chart.yaml to `./chart/<projectName>/` with its first `name:` placeholder replaced, and keeps every file outside both chart directories |
| Workspace.ChartMovableWithoutSlash | src/create-sub/index.js:225 | the template chart can always be renamed to a name without `/` |
| Workspace.ChartActionThrowsWithoutParent | src/create-sub/index.js:225-227 | for a name with a `/` whose parent directory under `./chart` is missing, the chart step throws and changes nothing |
| Workspace.SlashNameAccepted | src/create-sub/getUserInput.js:105 | the project/auto rule accepts `yst-a/b-web-support`, a name with a `/` |
| Workspace.SlashNameParent | src/create-sub/index.js:225 | the parent of `./chart/yst-a/b-web-support` is `./chart/yst-a` |
| Workspace.AcceptedNameWithSlashThrows | src/create-sub/index.js:225-227 | `yst-a/b-web-support` is accepted, and the chart step throws for it unless `./chart/yst-a` exists |
| Workspace.ChartYamlUnder | src/create-sub/index.js:225-226 | Chart.yaml lies under the template chart directory and, after the move, at `./chart/<projectName>/Chart.yaml` |
| Workspace.OtherType | src/create-sub/index.js:167-179 | the other project type differs from the given one |
| Workspace.DemoPageWritesOwnFile | src/create-sub/index.js:129-142 | the demo page step writes the page of its type and domain, changes no other file, and cannot throw |
| Workspace.DemoRouteWritesOwnFiles | src/create-sub/index.js:144-181 | the route step writes the route file and its own type's aggregate index, keeps every other file (the other type's aggregate index among them), and cannot throw |
| Workspace.ProjectDir.constructor | src/create-sub/index.js:268 | before the clone there is no project directory |
| Workspace.ProjectDir.Fill | src/create-sub/index.js:53-56 | after the clone the directory is present with the template's contents |
| Workspace.ProjectDir.Clear | src/create-sub/index.js:238-240 | `clearProject` leaves no project directory |
| Workspace.ProjectDir.HandlePublicIndexHtmlTitle | src/create-sub/index.js:122-127 | the new contents, and whether it threw, are those of the title action |
| Workspace.ProjectDir.CreateDemoPage | src/create-sub/index.js:129-142 | the new contents are those of the demo page action |
| Workspace.ProjectDir.CreateDemoRoute | src/create-sub/index.js:144-181 | the new contents are those of the route action |
| Workspace.ProjectDir.HandleAntdPrefixCls | src/create-sub/index.js:183-188 | the new contents, and whether it threw, are those of the prefix-class action |
| Workspace.ProjectDir.HandlePublicPath | src/create-sub/index.js:190-195 | the new contents, and whether it threw, are those of the public-path action |
| Workspace.ProjectDir.HandlePackageJson | src/create-sub/index.js:197-221 | editing the parsed object in place ends as the `package.json` action says: thrown with the file untouched when parsing or the `scripts.start` access fails, written back otherwise |
| Workspace.ProjectDir.HandleChart | src/create-sub/index.js:223-230 | moving the chart directory when the template is there and the rename can be done, then rewriting Chart.yaml, ends as the chart action says, a missing template or a refused rename included |
| Workspace.ProjectDir.RewritePlaceholder | src/create-sub/index.js:123-126 | one read-replace-write leaves the contents as `RewriteFile` says |
| CreateSub.TryExec | src/create-sub/index.js:27-48 | an action that returns makes `tryExec` return; an action that throws makes it throw exactly when `isThrow` is set; what the action wrote is kept either way |
| CreateSub.Action | src/create-sub/index.js:273-286 | the action each step runs, with its arguments taken from the configuration; `RunAction` runs it on the directory |
| CreateSub.RunStep | src/create-sub/index.js:273-286 | a subtree step with an empty branch is logged as skipped and changes nothing; any other step leaves its action's contents and fails exactly when its action throws |
| CreateSub.RunStepsLog | src/create-sub/index.js:272-292 | the steps are logged one event per step, in order, from the first; no logged step but the last failed; the run failed iff the last one did; a run that did not fail logged every step |
| CreateSub.RunSteps | src/create-sub/index.js:272-288 | the steps in order, stopping at the first that fails; `RunStepsLog`, `Advance` and `RunStepsAgree` state it |
| CreateSub.Provision | src/create-sub/index.js:266-296 | the download, the `try` block, the removal on failure and the install on success, generic in the step actions; `FailedDownloadDoesNothing`, `CleanupAndInstall` and `StepsInOrder` state it |
| CreateSub.CreateSubSpec | src/create-sub/index.js:257-297 | `Provision` with the real step actions, the answers and the external results; `CreateSub` is proved to end as it says |
| CreateSub.FailedDownloadDoesNothing | src/create-sub/index.js:269-270 | a failed download logs only itself, runs no step, removes nothing, installs nothing, and leaves the project path as it was |
| CreateSub.CleanupAndInstall | src/create-sub/index.js:270-295 | after a good download the project root is removed exactly once, as the last event and leaving no directory, iff some step threw; `npm i` runs exactly once iff no step threw, and its failure removes nothing |
| CreateSub.StepsInOrder | src/create-sub/index.js:273-286 | the steps are logged right after the download in their fixed order, nothing after them is a step, and only the last logged step can have failed |
| CreateSub.EmptyBranchIsSkipped | src/create-sub/index.js:80-120 | every subtree step whose branch answer is empty is logged as skipped, not as failed |
| CreateSub.RunStepsAgree | src/create-sub/index.js:273-286 | runs whose steps behave alike and whose branch answers agree give the same log and contents |
| CreateSub.AutoNpmInstallIgnored | src/create-sub/index.js:258-259 | the run is the same whatever the `autoNpmInstall` answer is |
| CreateSub.LogCounts | src/create-sub/index.js:287-295 | the step events of the log contribute no removal and no install |
| CreateSub.CountsAppend | src/create-sub/index.js:289-295 | removals and installs of a concatenated log add up |
| CreateSub.StepEventsCountNothing | src/create-sub/index.js:273-286 | a log of step events contains no removal and no install |
| CreateSub.Advance | src/create-sub/index.js:273-286 | running the steps is running the first one, then stopping if it failed or going on with the rest |
| CreateSub.RunStepIs | src/create-sub/index.js:276-286 | a step that is not skipped is logged by whether its action threw, with its action's contents |
| CreateSub.RunGitStep | src/create-sub/index.js:273-275 | `initGit` and a `git subtree add` throw exactly when their command fails and change no modelled file |
| CreateSub.RunAction | src/create-sub/index.js:273-286 | the action of any step run on the directory ends as that step's action says |
| CreateSub.RunPageHandler | src/create-sub/index.js:276-278 | the title, demo page and route handlers run on the directory end as their actions say |
| CreateSub.RunConfigHandler | src/create-sub/index.js:279-286 | the prefix-class, public-path, `package.json` and chart handlers run on the directory end as their actions say |
| CreateSub.RunStepOn | src/create-sub/index.js:273-286 | one step run on the directory logs the status and leaves the contents that `RunStep` gives |
| CreateSub.ExecStep | src/create-sub/index.js:273-286 | running step `k` advances the log and the directory exactly as the whole run does, and stops it on failure |
| CreateSub.RunTry | src/create-sub/index.js:271-288 | the `try` block run on the directory logs and leaves exactly what the run of all the steps gives, and fails exactly when that run does |
| CreateSub.CreateSub | src/create-sub/index.js:257-297 | the log and the final directory of `createSub` are those of `CreateSubSpec`: removal on a failed step, install on success, nothing after a failed download |

## Left out

- Prompting (`inquirer`), the answers' order and re-asking after a refusal
  are not modelled: the answers are one input record, and `GetUserInput`
  returns None where a validate callback would refuse and ask again.
- The async and Promise plumbing, spinners and coloured console output are
  not modelled; the log records which message was shown, not its text,
  and the error message printed after the removal is not an event.
- The template clone, the git commands and `npm i` are external processes.
  Each is a boolean in `Externals` (succeeds or fails) and changes no
  modelled file. Not modelled: the removal and re-import of `src/cloudt`
  and the files a subtree import adds.
- Files the clone partly wrote before failing are not modelled: a failed
  download leaves the project path as it was.
- The download's outcome is an input boolean: it is not tied to whether the
  project directory already exists. The real clone fails into a non-empty
  directory, but with the boolean true `Fill` replaces whatever was there.
- Failures of `mkdir` and `writeFileSync` are not modelled; the demo page
  and route steps cannot throw in the model.
- `shell.cd` is not modelled: paths are taken relative to the project
  root.
- `path.resolve` is not modelled beyond joining the working directory and
  the project name with `/`: there is no normalisation of `.`, `..` or
  an absolute name.
- `shell.mv` onto an existing directory is not modelled: that call would
  nest the source inside the destination, and `MoveDir` always renames.
- Workspace.ChartAction: the parent of `./chart/<projectName>` is taken as
  the text before the last `/` of the name, without normalising the path
  first. A name that ends in `/` or holds `//` is not resolved as
  `rename(2)` and `path.resolve` would resolve it.
- The JSON text of `package.json` is not modelled: the file is a parsed
  record, and an unparsable file is a missing one. Values other than
  strings under `scripts`, the key order and the 2-space formatting of
  `JSON.stringify` are not modelled.
- Strings.ReplaceFirst: the replacement is taken literally; JavaScript's
  `$&`, `$'`, `` $` `` and `$$` patterns in a replacement are not
  expanded (a project name may contain `$`).
- UserInput.ValidateDevPort: `IsNumeric` follows the StringNumericLiteral
  grammar of ECMA-262, with decimal literals, `Infinity`, and unsigned
  `0x`, `0o` and `0b` literals, after trimming white space. Its
  white-space set is the one listed in `IsJsWhitespace`.
- CreateSub.RunTry: the source makes ten consecutive calls; the model goes
  over `Steps()` in one loop, one step per iteration. The calls, their
  order, their arguments and their stop on the first throw are the same,
  and each step is proved once instead of ten times in sequence.
- CreateSub.CreateSub: the directory contents are values held in one
  `ProjectDir` object; aliasing between several directories is not
  modelled.
