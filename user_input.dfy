/** The answers collected before a sub-project is created: the four
    project-name rules chosen by project type and create mode, the
    public-path rule, the dev-port rule, and the derivation of `domin`,
    `prefixCls` and `publicPath` (src/create-sub/getUserInput.js).
    Prompting is not modelled; the operator's answers are an input record. */
module UserInput {
  import opened Strings

  /** The `createMode` choices: `auto` parses the name, `manu` asks. */
  datatype CreateMode = Auto | Manu

  /** The `projectType` choices: `standard` or `project`. */
  datatype ProjectType = Standard | Project

  // ---------------------------------------------------------------------
  // Character classes of the regular expressions

  /** `\w`: an ASCII letter, digit or underscore. */
  predicate IsWordChar(c: char) {
    ('a' <= c <= 'z') || ('A' <= c <= 'Z') || ('0' <= c <= '9') || c == '_'
  }

  /** `.` without the `s` flag: anything but a line terminator. */
  predicate IsDotChar(c: char) {
    c != '\n' && c != '\r' && c != '\U{2028}' && c != '\U{2029}'
  }

  predicate AllDotChars(s: string) {
    forall i :: 0 <= i < |s| ==> IsDotChar(s[i])
  }

  /** `\w{2,10}`: the business-domain word. */
  predicate IsDomainWord(w: string) {
    2 <= |w| <= 10 && forall i :: 0 <= i < |w| ==> IsWordChar(w[i])
  }

  /** `.+` */
  predicate IsDotPlus(s: string) {
    |s| >= 1 && AllDotChars(s)
  }

  const StandardPrefix: string := "yst-cloudt-web-"
  const ProjectPrefix: string := "yst-"
  const WebInfix: string := "-web-"

  // ---------------------------------------------------------------------
  // The regular expressions, read as concatenations of their pieces

  /** `^yst-cloudt-web-(\w{2,10})$` */
  ghost predicate StandardAutoPattern(s: string) {
    exists w :: s == StandardPrefix + w && IsDomainWord(w)
  }

  /** `^yst-cloudt-web-.+$` */
  ghost predicate StandardManuPattern(s: string) {
    exists r :: s == StandardPrefix + r && IsDotPlus(r)
  }

  /** `^yst-.+-web-(\w{2,10})$` */
  ghost predicate ProjectAutoPattern(s: string) {
    exists a, w :: s == ProjectPrefix + a + WebInfix + w && IsDotPlus(a) && IsDomainWord(w)
  }

  /** `^yst-.+-web-.+$` */
  ghost predicate ProjectManuPattern(s: string) {
    exists a, b :: s == ProjectPrefix + a + WebInfix + b && IsDotPlus(a) && IsDotPlus(b)
  }

  /** `^\/\w{2,10}\/$` */
  ghost predicate PublicPathPattern(s: string) {
    exists w :: s == "/" + w + "/" && IsDomainWord(w)
  }

  /** The rule the name prompt applies for a project type and create mode. */
  ghost predicate NamePattern(projectType: ProjectType, createMode: CreateMode, s: string) {
    match (projectType, createMode)
    case (Standard, Auto) => StandardAutoPattern(s)
    case (Standard, Manu) => StandardManuPattern(s)
    case (Project, Auto) => ProjectAutoPattern(s)
    case (Project, Manu) => ProjectManuPattern(s)
  }

  // ---------------------------------------------------------------------
  // Matchers for the four name rules and the public-path rule

  predicate MatchesStandardAuto(s: string) {
    HasPrefix(s, StandardPrefix) && IsDomainWord(s[|StandardPrefix|..])
  }

  predicate MatchesStandardManu(s: string) {
    HasPrefix(s, StandardPrefix) && IsDotPlus(s[|StandardPrefix|..])
  }

  /** The domain word of a project name can only be the text after its
      last `-`, since `\w` does not match `-`. */
  predicate MatchesProjectAuto(s: string) {
    var w := LastSegment(s, '-');
    && IsDomainWord(w)
    && HasPrefix(s, ProjectPrefix)
    && |s| >= |ProjectPrefix| + 1 + |WebInfix| + |w|
    && s[|s| - |w| - |WebInfix|..|s| - |w|] == WebInfix
    && IsDotPlus(s[|ProjectPrefix|..|s| - |w| - |WebInfix|])
  }

  /** `.+` matches `-` too, so it suffices that the first `-web-` after
      at least one character is followed by at least one character. */
  predicate MatchesProjectManu(s: string) {
    && HasPrefix(s, ProjectPrefix)
    && |s| > |ProjectPrefix| + 1
    && AllDotChars(s[|ProjectPrefix|..])
    && match IndexOf(s[|ProjectPrefix| + 1..], WebInfix)
       case None => false
       case Some(j) => |ProjectPrefix| + 1 + j + |WebInfix| < |s|
  }

  predicate MatchesPublicPath(s: string) {
    |s| >= 2 && s[0] == '/' && s[|s| - 1] == '/' && IsDomainWord(s[1..|s| - 1])
  }

  lemma StandardAutoMatches(s: string)
    ensures MatchesStandardAuto(s) <==> StandardAutoPattern(s)
  {
    if MatchesStandardAuto(s) {
      assert s == StandardPrefix + s[|StandardPrefix|..];
    }
    if StandardAutoPattern(s) {
      var w :| s == StandardPrefix + w && IsDomainWord(w);
      assert s[|StandardPrefix|..] == w;
    }
  }

  lemma StandardManuMatches(s: string)
    ensures MatchesStandardManu(s) <==> StandardManuPattern(s)
  {
    if MatchesStandardManu(s) {
      assert s == StandardPrefix + s[|StandardPrefix|..];
    }
    if StandardManuPattern(s) {
      var r :| s == StandardPrefix + r && IsDotPlus(r);
      assert s[|StandardPrefix|..] == r;
    }
  }

  /** A domain word contains no `-`. */
  lemma DomainWordHasNoDash(w: string)
    requires IsDomainWord(w)
    ensures '-' !in w && '/' !in w
  {
  }

  lemma DomainWordIsDotPlus(w: string)
    requires IsDomainWord(w)
    ensures IsDotPlus(w)
  {
    assert forall i :: 0 <= i < |w| ==> IsWordChar(w[i]);
  }

  /** In a name ending in `-` and a domain word, the last segment is that word. */
  lemma DomainWordIsLastSegment(pre: string, w: string)
    requires IsDomainWord(w)
    ensures LastSegment(pre + "-" + w, '-') == w
  {
    DomainWordHasNoDash(w);
    LastSegmentAfter(pre, w, '-');
  }

  /** A name the matcher accepts is `yst-`, the text before the last
      `-web-`, `-web-` and its last segment. */
  lemma ProjectAutoSplits(s: string)
    requires MatchesProjectAuto(s)
    ensures var w := LastSegment(s, '-');
            s == ProjectPrefix + s[|ProjectPrefix|..|s| - |w| - |WebInfix|] + WebInfix + w
  {
    var w := LastSegment(s, '-');
    var a := s[|ProjectPrefix|..|s| - |w| - |WebInfix|];
    assert s[..|ProjectPrefix|] == ProjectPrefix;
    assert s[|s| - |w|..] == w by {
      JoinEndsWithLast(Split(s, '-'), '-');
    }
    assert s == s[..|ProjectPrefix|] + a + s[|s| - |w| - |WebInfix|..|s| - |w|] + s[|s| - |w|..];
  }

  /** Every name the pattern describes is accepted by the matcher. */
  lemma ProjectAutoAccepts(a: string, w: string)
    requires IsDotPlus(a) && IsDomainWord(w)
    ensures MatchesProjectAuto(ProjectPrefix + a + WebInfix + w)
  {
    var s := ProjectPrefix + a + WebInfix + w;
    assert s == (ProjectPrefix + a + "-web") + "-" + w;
    DomainWordIsLastSegment(ProjectPrefix + a + "-web", w);
    assert s[|ProjectPrefix|..|s| - |w| - |WebInfix|] == a;
    assert s[|s| - |w| - |WebInfix|..|s| - |w|] == WebInfix;
    assert s[..|ProjectPrefix|] == ProjectPrefix;
  }

  lemma ProjectAutoMatches(s: string)
    ensures MatchesProjectAuto(s) <==> ProjectAutoPattern(s)
  {
    if MatchesProjectAuto(s) {
      ProjectAutoSplits(s);
    }
    if ProjectAutoPattern(s) {
      var a, w :| s == ProjectPrefix + a + WebInfix + w && IsDotPlus(a) && IsDomainWord(w);
      ProjectAutoAccepts(a, w);
    }
  }

  /** A slice of a string whose characters all match `.` matches `.` too. */
  lemma AllDotCharsSlice(s: string, i: int, j: int)
    requires 0 <= i <= j <= |s| && AllDotChars(s)
    ensures AllDotChars(s[i..j])
  {
    forall k | 0 <= k < j - i ensures IsDotChar(s[i..j][k]) {
      assert s[i..j][k] == s[i + k];
    }
  }

  /** `a + "-web-" + b` matches `.` everywhere when `a` and `b` do. */
  lemma AllDotCharsAround(a: string, b: string)
    requires AllDotChars(a) && AllDotChars(b)
    ensures AllDotChars(a + WebInfix + b)
  {
    var t := a + WebInfix + b;
    forall i | 0 <= i < |t| ensures IsDotChar(t[i]) {
      if i < |a| { assert t[i] == a[i]; }
      else if i < |a| + |WebInfix| { assert t[i] == WebInfix[i - |a|]; }
      else { assert t[i] == b[i - |a| - |WebInfix|]; }
    }
  }

  /** A name the matcher accepts splits at the first `-web-` after `yst-`
      and one more character. */
  lemma ProjectManuSplits(s: string)
    requires MatchesProjectManu(s)
    ensures var k := |ProjectPrefix| + 1;
            var j := IndexOf(s[k..], WebInfix).value;
            && s == ProjectPrefix + s[|ProjectPrefix|..k + j] + WebInfix + s[k + j + |WebInfix|..]
            && IsDotPlus(s[|ProjectPrefix|..k + j]) && IsDotPlus(s[k + j + |WebInfix|..])
  {
    var k := |ProjectPrefix| + 1;
    var j := IndexOf(s[k..], WebInfix).value;
    var a := s[|ProjectPrefix|..k + j];
    var b := s[k + j + |WebInfix|..];
    assert s[k..][j..j + |WebInfix|] == s[k + j..k + j + |WebInfix|];
    assert s == s[..|ProjectPrefix|] + a + s[k + j..k + j + |WebInfix|] + b;
    assert s[..|ProjectPrefix|] == ProjectPrefix;
    var t := s[|ProjectPrefix|..];
    AllDotCharsSlice(t, 0, k + j - |ProjectPrefix|);
    assert t[0..k + j - |ProjectPrefix|] == a;
    AllDotCharsSlice(t, k + j + |WebInfix| - |ProjectPrefix|, |t|);
    assert t[k + j + |WebInfix| - |ProjectPrefix|..|t|] == b;
  }

  /** Every name the pattern describes is accepted by the matcher. */
  lemma ProjectManuAccepts(a: string, b: string)
    requires IsDotPlus(a) && IsDotPlus(b)
    ensures MatchesProjectManu(ProjectPrefix + a + WebInfix + b)
  {
    var s := ProjectPrefix + a + WebInfix + b;
    var k := |ProjectPrefix| + 1;
    assert s[..|ProjectPrefix|] == ProjectPrefix;
    assert s[|ProjectPrefix|..] == a + WebInfix + b;
    AllDotCharsAround(a, b);
    assert s[k..][|a| - 1..|a| - 1 + |WebInfix|] == WebInfix;
    assert OccursAt(s[k..], WebInfix, |a| - 1);
    var r := IndexOf(s[k..], WebInfix);
    assert r.Some? && r.value <= |a| - 1;
  }

  lemma ProjectManuMatches(s: string)
    ensures MatchesProjectManu(s) <==> ProjectManuPattern(s)
  {
    if MatchesProjectManu(s) {
      ProjectManuSplits(s);
    }
    if ProjectManuPattern(s) {
      var a, b :| s == ProjectPrefix + a + WebInfix + b && IsDotPlus(a) && IsDotPlus(b);
      ProjectManuAccepts(a, b);
    }
  }

  lemma PublicPathMatches(s: string)
    ensures MatchesPublicPath(s) <==> PublicPathPattern(s)
  {
    if MatchesPublicPath(s) {
      assert s == "/" + s[1..|s| - 1] + "/";
    }
    if PublicPathPattern(s) {
      var w :| s == "/" + w + "/" && IsDomainWord(w);
      assert s[1..|s| - 1] == w;
    }
  }

  // ---------------------------------------------------------------------
  // The validate callbacks: `true` or the message shown to the operator

  datatype Verdict = Accepted | Rejected(message: string)

  /** The name prompt's validate callback (getUserInput.js:85-120):
      accepts exactly the names its regular expression matches. */
  function ValidateProjectName(projectType: ProjectType, createMode: CreateMode, input: string): (v: Verdict)
    ensures v.Accepted? <==> NamePattern(projectType, createMode, input)
  {
    StandardAutoMatches(input);
    StandardManuMatches(input);
    ProjectAutoMatches(input);
    ProjectManuMatches(input);
    match (projectType, createMode)
    case (Standard, Auto) =>
      if MatchesStandardAuto(input) then Accepted
      else Rejected("工程名必须以【yst-cloudt-web-】开头,后跟一个业务域名单词(长度2-10),如yst-cloudt-web-support")
    case (Standard, Manu) =>
      if MatchesStandardManu(input) then Accepted
      else Rejected("工程名必须以【yst-cloudt-web-】开头,后跟业务域名标识,如yst-cloudt-web-support")
    case (Project, Auto) =>
      if MatchesProjectAuto(input) then Accepted
      else Rejected("工程名必须以【yst-项目简称-web-】开头,后跟一个业务域名单词(长度2-10),如yst-lm-web-support")
    case (Project, Manu) =>
      if MatchesProjectManu(input) then Accepted
      else Rejected("工程名必须以【yst-项目简称-web-】开头,后跟业务域名标识,如yst-cloudt-web-support")
  }

  /** The public-path prompt's validate callback (getUserInput.js:135-143). */
  function ValidatePublicPath(input: string): (v: Verdict)
    ensures v.Accepted? <==> PublicPathPattern(input)
  {
    PublicPathMatches(input);
    if MatchesPublicPath(input) then Accepted
    else Rejected("publicPath必须以/开头 /结尾 中间的单词长度为2-10,如/support/: ")
  }

  // ---------------------------------------------------------------------
  // `Number(input)` is not NaN: ECMAScript's StringToNumber grammar

  /** WhiteSpace and LineTerminator of ECMAScript, which `Number` trims. */
  predicate IsJsWhitespace(c: char) {
    || c == '\t' || c == '\U{000B}' || c == '\U{000C}' || c == ' ' || c == '\U{00A0}' || c == '\U{FEFF}'
    || c == '\U{1680}' || ('\U{2000}' <= c <= '\U{200A}') || c == '\U{202F}' || c == '\U{205F}' || c == '\U{3000}'
    || c == '\n' || c == '\r' || c == '\U{2028}' || c == '\U{2029}'
  }

  function TrimStart(s: string): string
    decreases |s|
  {
    if |s| > 0 && IsJsWhitespace(s[0]) then TrimStart(s[1..]) else s
  }

  function TrimEnd(s: string): string
    decreases |s|
  {
    if |s| > 0 && IsJsWhitespace(s[|s| - 1]) then TrimEnd(s[..|s| - 1]) else s
  }

  predicate IsDigit(c: char) { '0' <= c <= '9' }

  predicate IsDigits(s: string) {
    |s| >= 1 && forall i :: 0 <= i < |s| ==> IsDigit(s[i])
  }

  predicate IsSign(c: char) { c == '+' || c == '-' }

  /** Digits with at most one `.`, and at least one digit: `1`, `1.`, `.5`, `1.5`. */
  predicate IsMantissa(m: string) {
    && (forall i :: 0 <= i < |m| ==> IsDigit(m[i]) || m[i] == '.')
    && (forall i, j :: 0 <= i < j < |m| && m[i] == '.' ==> m[j] != '.')
    && (exists i :: 0 <= i < |m| && IsDigit(m[i]))
  }

  predicate IsSignedInteger(e: string) {
    if |e| > 0 && IsSign(e[0]) then IsDigits(e[1..]) else IsDigits(e)
  }

  predicate IsUnsignedDecimal(t: string) {
    || t == "Infinity"
    || IsMantissa(t)
    || exists i :: 0 <= i < |t| && (t[i] == 'e' || t[i] == 'E') && IsMantissa(t[..i]) && IsSignedInteger(t[i + 1..])
  }

  predicate IsDecimalLiteral(t: string) {
    if |t| > 0 && IsSign(t[0]) then IsUnsignedDecimal(t[1..]) else IsUnsignedDecimal(t)
  }

  predicate AllIn(s: string, digits: string) {
    forall i :: 0 <= i < |s| ==> s[i] in digits
  }

  /** `0x…`, `0o…` and `0b…`, unsigned. */
  predicate IsNonDecimalInteger(t: string) {
    && |t| > 2 && t[0] == '0'
    && (|| ((t[1] == 'x' || t[1] == 'X') && AllIn(t[2..], "0123456789abcdefABCDEF"))
        || ((t[1] == 'o' || t[1] == 'O') && AllIn(t[2..], "01234567"))
        || ((t[1] == 'b' || t[1] == 'B') && AllIn(t[2..], "01")))
  }

  /** `!Number.isNaN(Number(s))`: after trimming white space the text is
      empty (which converts to 0) or a numeric literal. */
  predicate IsNumeric(s: string) {
    var t := TrimEnd(TrimStart(s));
    t == "" || IsDecimalLiteral(t) || IsNonDecimalInteger(t)
  }

  /** The dev-port prompt's validate callback (getUserInput.js:154-159):
      only the empty answer and answers that are not numbers are refused. */
  function ValidateDevPort(input: string): (v: Verdict)
    ensures v.Rejected? <==> input == "" || !IsNumeric(input)
  {
    if input == "" || !IsNumeric(input) then Rejected("请输入大于0的数字") else Accepted
  }

  /** There is no range check: every non-empty string of decimal digits,
      `0` and numbers above 65535 included, is an accepted port. */
  lemma DevPortAcceptsDigits(s: string)
    requires IsDigits(s)
    ensures ValidateDevPort(s).Accepted?
  {
    assert !IsJsWhitespace(s[0]) && !IsJsWhitespace(s[|s| - 1]);
    assert TrimEnd(TrimStart(s)) == s;
    assert IsDigit(s[0]);
    assert IsMantissa(s);
  }

  /** Nor is the sign checked: a negative port is accepted. */
  lemma DevPortAcceptsNegative(s: string)
    requires IsDigits(s)
    ensures ValidateDevPort("-" + s).Accepted?
  {
    var t := "-" + s;
    assert !IsJsWhitespace(t[0]) && !IsJsWhitespace(t[|t| - 1]);
    assert TrimEnd(TrimStart(t)) == t;
    assert t[1..] == s;
    assert IsDigit(s[0]);
    assert IsMantissa(s);
  }

  /** An answer of white space only is accepted, since it converts to 0. */
  lemma DevPortAcceptsBlank(n: nat)
    requires n > 0
    ensures ValidateDevPort(seq(n, _ => ' ')).Accepted?
  {
    BlankTrims(seq(n, _ => ' '));
  }

  lemma {:induction false} BlankTrims(s: string)
    requires forall i :: 0 <= i < |s| ==> s[i] == ' '
    ensures TrimStart(s) == ""
    decreases |s|
  {
    if |s| > 0 {
      BlankTrims(s[1..]);
    }
  }

  // ---------------------------------------------------------------------
  // Derivation of domin, prefixCls and publicPath

  datatype Derived = Derived(domin: string, prefixCls: string, publicPath: string)

  /** Auto mode (getUserInput.js:10-14): `domin` is the last `-`-separated
      segment of the project name. */
  function DeriveAuto(projectName: string): (d: Derived)
    ensures '-' !in d.domin
    ensures d.prefixCls == "yst-" + d.domin && d.publicPath == "/" + d.domin + "/"
  {
    var domin := LastSegment(projectName, '-');
    Derived(domin, "yst-" + domin, "/" + domin + "/")
  }

  /** Manual mode (getUserInput.js:15-16): `prefixCls` and `publicPath` are
      the answers; `domin` is the public path with every `/` removed. */
  function DeriveManual(prefixCls: string, publicPath: string): (d: Derived)
    ensures '/' !in d.domin
    ensures d.prefixCls == prefixCls && d.publicPath == publicPath
  {
    Derived(RemoveAll(publicPath, '/'), prefixCls, publicPath)
  }

  /** For each project type, a name the auto rule accepts is accepted by
      the manual rule too. */
  lemma AutoNameAcceptedInManualMode(projectType: ProjectType, s: string)
    requires ValidateProjectName(projectType, Auto, s).Accepted?
    ensures ValidateProjectName(projectType, Manu, s).Accepted?
  {
    if projectType == Standard {
      var w :| s == StandardPrefix + w && IsDomainWord(w);
      DomainWordIsDotPlus(w);
    } else {
      var a, w :| s == ProjectPrefix + a + WebInfix + w && IsDotPlus(a) && IsDomainWord(w);
      DomainWordIsDotPlus(w);
    }
  }

  /** `yst-cloudt-web-` is `yst-`, the short name `cloudt` and `-web-`. */
  lemma StandardPrefixSplits(r: string)
    ensures StandardPrefix + r == ProjectPrefix + "cloudt" + WebInfix + r
  {
    assert StandardPrefix == ProjectPrefix + "cloudt" + WebInfix;
  }

  /** A standard name also meets the project rule of the same mode, with
      `cloudt` as the project's short name. */
  lemma StandardNameIsProjectName(createMode: CreateMode, s: string)
    requires ValidateProjectName(Standard, createMode, s).Accepted?
    ensures ValidateProjectName(Project, createMode, s).Accepted?
  {
    assert IsDotPlus("cloudt");
    if createMode == Auto {
      var w :| s == StandardPrefix + w && IsDomainWord(w);
      StandardPrefixSplits(w);
      assert ProjectAutoPattern(s);
    } else {
      var r :| s == StandardPrefix + r && IsDotPlus(r);
      StandardPrefixSplits(r);
      assert ProjectManuPattern(s);
    }
  }

  /** A name ending in `-web-` and a domain word derives that word as
      `domin`. */
  lemma DeriveAutoTrailingWord(pre: string, w: string)
    requires IsDomainWord(w)
    ensures DeriveAuto(pre + WebInfix + w).domin == w
  {
    assert pre + WebInfix + w == (pre + "-web") + "-" + w;
    DomainWordIsLastSegment(pre + "-web", w);
  }

  /** `/` + a domain word + `/` passes the public-path rule. */
  lemma DomainWordPublicPath(w: string)
    requires IsDomainWord(w)
    ensures ValidatePublicPath("/" + w + "/").Accepted?
  {
  }

  /** A name made of anything, `-web-` and a domain word derives that word,
      ends in `-web-` and the word, and gives a valid public path. */
  lemma AutoDerivationOf(pre: string, w: string)
    requires IsDomainWord(w)
    ensures var s := pre + WebInfix + w;
            var d := DeriveAuto(s);
            && d.domin == w
            && |s| >= |WebInfix| + |d.domin|
            && s[|s| - |WebInfix| - |d.domin|..] == WebInfix + d.domin
            && ValidatePublicPath(d.publicPath).Accepted?
  {
    var s := pre + WebInfix + w;
    DeriveAutoTrailingWord(pre, w);
    assert s[|s| - |WebInfix| - |w|..] == WebInfix + w;
    DomainWordPublicPath(w);
  }

  /** What the auto derivation promises for name `s` and its `domin`. */
  predicate AutoDerivationHolds(s: string, d: Derived) {
    && IsDomainWord(d.domin)
    && |s| >= |WebInfix| + |d.domin|
    && s[|s| - |WebInfix| - |d.domin|..] == WebInfix + d.domin
    && ValidatePublicPath(d.publicPath).Accepted?
  }

  lemma StandardAutoDerivation(w: string)
    requires IsDomainWord(w)
    ensures AutoDerivationHolds(StandardPrefix + w, DeriveAuto(StandardPrefix + w))
  {
    assert StandardPrefix == "yst-cloudt" + WebInfix;
    assert StandardPrefix + w == "yst-cloudt" + WebInfix + w;
    AutoDerivationOf("yst-cloudt", w);
  }

  lemma ProjectAutoDerivation(a: string, w: string)
    requires IsDomainWord(w)
    ensures var s := ProjectPrefix + a + WebInfix + w;
            AutoDerivationHolds(s, DeriveAuto(s))
  {
    AutoDerivationOf(ProjectPrefix + a, w);
  }

  /** The auto derivation of a name of one of the two auto patterns. */
  lemma AutoDerivationOfPattern(projectType: ProjectType, s: string)
    requires NamePattern(projectType, Auto, s)
    ensures AutoDerivationHolds(s, DeriveAuto(s))
  {
    if projectType == Standard {
      var w :| s == StandardPrefix + w && IsDomainWord(w);
      StandardAutoDerivation(w);
    } else {
      var a, w :| s == ProjectPrefix + a + WebInfix + w && IsDotPlus(a) && IsDomainWord(w);
      ProjectAutoDerivation(a, w);
    }
  }

  /** For a name the auto rule accepts, `domin` is exactly the trailing
      domain word, so the derived public path passes the manual public-path
      rule and the name ends in `-web-` followed by `domin`. */
  lemma AutoDerivationFromAcceptedName(projectType: ProjectType, s: string)
    requires ValidateProjectName(projectType, Auto, s).Accepted?
    ensures var d := DeriveAuto(s);
            && IsDomainWord(d.domin)
            && |s| >= |WebInfix| + |d.domin|
            && s[|s| - |WebInfix| - |d.domin|..] == WebInfix + d.domin
            && ValidatePublicPath(d.publicPath).Accepted?
  {
    AutoDerivationOfPattern(projectType, s);
  }

  /** The manual derivation of `/` + a domain word + `/`. */
  lemma ManualDerivationOf(prefixCls: string, w: string)
    requires IsDomainWord(w)
    ensures var publicPath := "/" + w + "/";
            var d := DeriveManual(prefixCls, publicPath);
            && d.domin == w
            && publicPath[1..|publicPath| - 1] == w
  {
    DomainWordHasNoDash(w);
    RemoveAllAppend("/" + w, "/", '/');
    RemoveAllAppend("/", w, '/');
    var publicPath := "/" + w + "/";
    assert publicPath[1..|publicPath| - 1] == w;
  }

  /** For a public path the manual rule accepts, `domin` is the word
      between the slashes, and the path is `/` + `domin` + `/`. */
  lemma ManualDerivationFromAcceptedPath(prefixCls: string, publicPath: string)
    requires ValidatePublicPath(publicPath).Accepted?
    ensures var d := DeriveManual(prefixCls, publicPath);
            && IsDomainWord(d.domin)
            && d.domin == publicPath[1..|publicPath| - 1]
            && publicPath == "/" + d.domin + "/"
  {
    assert PublicPathPattern(publicPath);
    var w :| publicPath == "/" + w + "/" && IsDomainWord(w);
    ManualDerivationOf(prefixCls, w);
  }

  /** The public-path rule on its boundary cases. */
  lemma PublicPathExamples()
    ensures ValidatePublicPath("/support/").Accepted? && ValidatePublicPath("/su/").Accepted?
    ensures ValidatePublicPath("support/").Rejected? && ValidatePublicPath("/s/").Rejected?
    ensures ValidatePublicPath("/support").Rejected?
  {
    DomainWordPublicPath("support");
    DomainWordPublicPath("su");
    assert !MatchesPublicPath("/s/") by { assert "/s/"[1..2] == "s"; }
  }

  // ---------------------------------------------------------------------
  // The whole questionnaire

  /** One answer per prompt. In auto mode `prefixCls` and `publicPath` are
      never asked, and their answers here are ignored. */
  datatype Answers = Answers(
    createMode: CreateMode,
    projectType: ProjectType,
    projectName: string,
    prefixCls: string,
    publicPath: string,
    devPort: string,
    cloudtBranch: string,
    stdShareBranch: string,
    autoNpmInstall: bool)

  /** The record `getUserInput` returns. */
  datatype Config = Config(
    projectType: ProjectType,
    domin: string,
    projectName: string,
    prefixCls: string,
    publicPath: string,
    devPort: string,
    cloudtBranch: string,
    stdShareBranch: string,
    autoNpmInstall: bool)

  /** The derivation of the mode the answers chose, for answers the
      prompts accept. */
  function Derive(a: Answers): (d: Derived)
    requires ValidateProjectName(a.projectType, a.createMode, a.projectName).Accepted?
    requires a.createMode == Manu ==> ValidatePublicPath(a.publicPath).Accepted?
    ensures IsDomainWord(d.domin) && d.publicPath == "/" + d.domin + "/"
    ensures a.createMode == Auto ==> d == DeriveAuto(a.projectName) && AutoDerivationHolds(a.projectName, d)
    ensures a.createMode == Manu ==> d == DeriveManual(a.prefixCls, a.publicPath)
  {
    if a.createMode == Auto then
      AutoDerivationFromAcceptedName(a.projectType, a.projectName);
      DeriveAuto(a.projectName)
    else
      ManualDerivationFromAcceptedPath(a.prefixCls, a.publicPath);
      DeriveManual(a.prefixCls, a.publicPath)
  }

  /** The record handed to createSub, or None when some answer would be
      refused by its validate callback (the prompt then asks again). */
  function GetUserInput(a: Answers): (r: Option<Config>)
    ensures r.Some? <==>
      && ValidateProjectName(a.projectType, a.createMode, a.projectName).Accepted?
      && (a.createMode == Manu ==> ValidatePublicPath(a.publicPath).Accepted?)
      && ValidateDevPort(a.devPort).Accepted?
    ensures r.Some? ==>
      var c := r.value;
      && IsDomainWord(c.domin)
      && c.publicPath == "/" + c.domin + "/"
      && (a.createMode == Auto ==>
            && c.domin == LastSegment(a.projectName, '-')
            && |a.projectName| >= |WebInfix| + |c.domin|
            && a.projectName[|a.projectName| - |WebInfix| - |c.domin|..] == WebInfix + c.domin
            && c.prefixCls == "yst-" + c.domin)
      && (a.createMode == Manu ==> c.prefixCls == a.prefixCls && c.publicPath == a.publicPath)
      && c.projectType == a.projectType && c.projectName == a.projectName && c.devPort == a.devPort
      && c.cloudtBranch == a.cloudtBranch && c.stdShareBranch == a.stdShareBranch
      && c.autoNpmInstall == a.autoNpmInstall
  {
    if ValidateProjectName(a.projectType, a.createMode, a.projectName).Rejected? then None
    else if a.createMode == Manu && ValidatePublicPath(a.publicPath).Rejected? then None
    else if ValidateDevPort(a.devPort).Rejected? then None
    else
      var d := Derive(a);
      Some(Config(a.projectType, d.domin, a.projectName, d.prefixCls, d.publicPath,
                  a.devPort, a.cloudtBranch, a.stdShareBranch, a.autoNpmInstall))
  }
}
