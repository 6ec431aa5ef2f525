/**
 * The `setup` command of lib/setup.js: it refuses to run outside a git
 * repository, points commitizen at `cz-config.js` in package.json, optionally
 * installs a `commit-msg` hook and commitizen itself, and copies the default
 * cz-customizable template unless a custom one was generated.
 *
 * Whether the directory is a git repository (`git rev-parse --git-dir`), which
 * npm commands fail, and the text of templates/default-cz-config.js are
 * parameters. lib/setup.js is an ES module, so it runs in strict mode.
 */
module Setup {
  import opened JsStrings
  import opened JsValues
  import opened Workspace
  import Formatter
  import Session
  import CzTemplate
  import Config

  /** The options the command line passes through. */
  datatype SetupOptions = SetupOptions(setupHooks: Value, installCommitizen: Value, templateType: Value)

  datatype SetupError =
    | NotARepository     // the error thrown before anything is written
    | PackageUnreadable  // `readJson` throws: package.json is not JSON
    | PackageTypeError   // a property assignment on a primitive, null or undefined throws

  const CzConfigPath := "cz-config.js"
  const HooksDir := ".git/hooks"
  const HookPath := ".git/hooks/commit-msg"
  const NpmInit := "npm init -y"
  const NpmInstall := "npm install --save-dev commitizen cz-customizable"

  // ---------------------------------------------------------------------------
  // package.json

  /** The document `setupCommitizenConfig` starts from: `{}` without package.json, `None` when reading it throws. */
  function ReadPackage(files: map<string, Entry>): (r: Option<Value>)
    ensures PackagePath !in files ==> r == Some(Obj(map[]))
    ensures PackagePath in files ==> (r.Some? <==> files[PackagePath].Json?)
    ensures PackagePath in files && r.Some? ==> r.value == files[PackagePath].value
  {
    if PackagePath !in files then Some(Obj(map[]))
    else if files[PackagePath].Json? then Some(files[PackagePath].value)
    else None
  }

  /** `pkg.key || {}`. */
  function Section(pkg: Value, key: string): Value
  {
    Or(Prop(pkg, key), Obj(map[]))
  }

  const CommitizenEntry := Obj(map["path" := Str("./cz-config.js")])

  /** The devDependencies section: the two packages added when installing, untouched otherwise. */
  function Dependencies(deps: Value, install: bool): (r: Option<Value>)
    ensures !install ==> r == Some(deps)
    ensures install ==> (r.Some? <==> HoldsProperties(deps))
  {
    if !install then Some(deps)
    else
      match AssignStrict(deps, "commitizen", Str("^4.3.0"))
      case None => None
      case Some(d) => AssignStrict(d, "cz-customizable", Str("^7.0.0"))
  }

  /** What `setupCommitizenConfig` makes of the document; `None` when an assignment throws. */
  function CommitizenUpdate(pkg: Value, install: bool): Option<Value>
  {
    var config, scripts, deps := Section(pkg, "config"), Section(pkg, "scripts"), Section(pkg, "devDependencies");
    match (AssignStrict(config, "commitizen", CommitizenEntry), AssignStrict(scripts, "commit", Str("cz")), Dependencies(deps, install))
    case (Some(c), Some(s), Some(d)) =>
      if HoldsProperties(pkg) then Some(SetProperty(SetProperty(SetProperty(pkg, "config", c), "scripts", s), "devDependencies", d))
      else None
    case _ => None
  }

  /**
   * On an object document: the update succeeds exactly when the `config` and
   * `scripts` sections (and `devDependencies` when installing) can hold
   * properties once `|| {}` has replaced a falsy one. Then `config.commitizen`
   * is `{ path: './cz-config.js' }` and `scripts.commit` is `'cz'` whatever they
   * were, the two packages are added exactly when installing, every other
   * property of the document and of the three sections is kept, and nothing
   * else is added.
   */
  lemma CommitizenEntries(p: map<string, Value>, install: bool)
    ensures var r, pkg := CommitizenUpdate(Obj(p), install), Obj(p);
            && (r.Some? <==> HoldsProperties(Section(pkg, "config")) && HoldsProperties(Section(pkg, "scripts"))
                              && (install ==> HoldsProperties(Section(pkg, "devDependencies"))))
            && (r.Some? ==>
                  && r.value.Obj?
                  && r.value.props.Keys == p.Keys + {"config", "scripts", "devDependencies"}
                  && (forall k :: k in p && k != "config" && k != "scripts" && k != "devDependencies" ==> r.value.props[k] == p[k])
                  && r.value.props["config"] == SetProperty(Section(pkg, "config"), "commitizen", CommitizenEntry)
                  && r.value.props["scripts"] == SetProperty(Section(pkg, "scripts"), "commit", Str("cz"))
                  && r.value.props["devDependencies"]
                     == if install then SetProperty(SetProperty(Section(pkg, "devDependencies"), "commitizen", Str("^4.3.0")), "cz-customizable", Str("^7.0.0"))
                        else Section(pkg, "devDependencies"))
  {
  }

  /** A document that is not an object, an array or a function cannot take the update. */
  lemma PrimitivePackageRefused(pkg: Value, install: bool)
    requires !HoldsProperties(pkg)
    ensures CommitizenUpdate(pkg, install).None?
  {
  }

  /** Running the update on its own output changes nothing. */
  lemma CommitizenIdempotent(pkg: Value, install: bool)
    requires CommitizenUpdate(pkg, install).Some?
    ensures CommitizenUpdate(CommitizenUpdate(pkg, install).value, install) == CommitizenUpdate(pkg, install)
  {
    if pkg.Obj? {
      var c0, s0, d0 := Section(pkg, "config"), Section(pkg, "scripts"), Section(pkg, "devDependencies");
      var c, s := SetProperty(c0, "commitizen", CommitizenEntry), SetProperty(s0, "commit", Str("cz"));
      var d1 := SetProperty(d0, "commitizen", Str("^4.3.0"));
      var d := if install then SetProperty(d1, "cz-customizable", Str("^7.0.0")) else d0;
      var q := CommitizenUpdate(pkg, install).value;
      assert q == Obj(pkg.props["config" := c]["scripts" := s]["devDependencies" := d]);
      assert Section(q, "config") == c && Section(q, "scripts") == s && Section(q, "devDependencies") == d;
      SetPropertyTwice(c0, "commitizen", CommitizenEntry, CommitizenEntry);
      SetPropertyTwice(s0, "commit", Str("cz"), Str("cz"));
      if install {
        assert SetProperty(SetProperty(d, "commitizen", Str("^4.3.0")), "cz-customizable", Str("^7.0.0")) == d by {
          if d0.Obj? {
            assert d.props["commitizen" := Str("^4.3.0")]["cz-customizable" := Str("^7.0.0")] == d.props;
          }
        }
      }
      assert q.props["config" := c]["scripts" := s]["devDependencies" := d] == q.props;
    }
  }

  /** `setupCommitizenConfig`: the document is read, updated section by section and written back. */
  method SetupCommitizenConfig(p: Project, install: bool) returns (error: Option<SetupError>)
    modifies p`files
    ensures ReadPackage(old(p.files)).None? ==> error == Some(PackageUnreadable)
    ensures ReadPackage(old(p.files)).Some? ==>
              var r := CommitizenUpdate(ReadPackage(old(p.files)).value, install);
              && (r.None? <==> error == Some(PackageTypeError))
              && (r.Some? <==> error.None?)
              && (r.Some? ==> p.files == old(p.files)[PackagePath := Json(r.value)])
    ensures error.Some? ==> p.files == old(p.files)
  {
    var pkg := Obj(map[]);
    if PackagePath in p.files {
      if !p.files[PackagePath].Json? {
        return Some(PackageUnreadable);
      }
      pkg := p.files[PackagePath].value;
    }
    ghost var original := pkg;
    // packageJson.config = packageJson.config || {}; packageJson.config.commitizen = { … }
    var config := Section(pkg, "config");
    var step := AssignStrict(pkg, "config", config);
    if step.None? {
      return Some(PackageTypeError);
    }
    pkg := step.value;
    step := AssignStrict(config, "commitizen", CommitizenEntry);
    if step.None? {
      return Some(PackageTypeError);
    }
    SetPropertyTwice(original, "config", config, step.value);
    config := step.value;
    pkg := SetProperty(pkg, "config", config);  // the section object is shared with the document
    ghost var withConfig := pkg;
    // packageJson.scripts = packageJson.scripts || {}; packageJson.scripts.commit = 'cz'
    PropAfterSet(original, "config", config, "scripts");
    var scripts := Section(pkg, "scripts");
    pkg := SetProperty(pkg, "scripts", scripts);
    step := AssignStrict(scripts, "commit", Str("cz"));
    if step.None? {
      return Some(PackageTypeError);
    }
    SetPropertyTwice(withConfig, "scripts", scripts, step.value);
    scripts := step.value;
    pkg := SetProperty(pkg, "scripts", scripts);
    ghost var withScripts := pkg;
    // packageJson.devDependencies = packageJson.devDependencies || {}; two entries when installing
    PropAfterSet(original, "config", config, "devDependencies");
    PropAfterSet(withConfig, "scripts", scripts, "devDependencies");
    var deps := Section(pkg, "devDependencies");
    assert deps == Section(original, "devDependencies");
    pkg := SetProperty(pkg, "devDependencies", deps);
    if install {
      step := AssignStrict(deps, "commitizen", Str("^4.3.0"));
      if step.None? {
        return Some(PackageTypeError);
      }
      deps := step.value;
      step := AssignStrict(deps, "cz-customizable", Str("^7.0.0"));
      SetPropertyTwice(withScripts, "devDependencies", Section(original, "devDependencies"), step.value);
      deps := step.value;
      pkg := SetProperty(pkg, "devDependencies", deps);
    }
    assert Some(pkg) == CommitizenUpdate(original, install);
    p.files := p.files[PackagePath := Json(pkg)];
    error := None;
  }

  // ---------------------------------------------------------------------------
  // The commit-msg hook

  /** The hook script written to `.git/hooks/commit-msg`, without a final line break. */
  const HookContent: string :=
    "#!/bin/sh\n" +
    "# Git commit message template hook\n" +
    "# Добавлен автоматически через commit-template CLI\n" +
    "\n" +
    "commit_regex='^(feat|fix|docs|style|refactor|test|chore)(/.+)? \\| #[0-9]+ \\| .+'\n" +
    "\n" +
    "if ! grep -qE \"$commit_regex\" \"$1\"; then\n" +
    "  echo \"❌ Неверный формат сообщения коммита!\"\n" +
    "  echo \"Используйте формат: {Тип задачи}/{название ветки} | #{ID задачи} | {Описание}\"\n" +
    "  echo \"Пример: feat/auth | #123 | Добавлена авторизация пользователей\"\n" +
    "  exit 1\n" +
    "fi"

  /** The files after `setupGitHooks`: the hooks directory made if absent, the hook written over whatever was there. */
  function WithHook(files: map<string, Entry>): (r: map<string, Entry>)
    ensures r.Keys == files.Keys + {GitDir, HooksDir, HookPath}
    ensures r[HookPath] == Text(HookContent)
    ensures forall path :: path in files && path != HookPath ==> r[path] == files[path]
    ensures GitDir !in files ==> r[GitDir] == Directory
    ensures HooksDir !in files ==> r[HooksDir] == Directory
  {
    var withGit := if GitDir in files then files else files[GitDir := Directory];
    var withHooks := if HooksDir in withGit then withGit else withGit[HooksDir := Directory];
    withHooks[HookPath := Text(HookContent)]
  }

  /** `setupGitHooks`: `ensureDir`, `writeFile`, then `chmod 755`. */
  method SetupGitHooks(p: Project)
    modifies p`files, p`executables
    ensures p.files == WithHook(old(p.files))
    ensures p.executables == old(p.executables) + {HookPath}
  {
    if GitDir !in p.files {
      p.files := p.files[GitDir := Directory];
    }
    if HooksDir !in p.files {
      p.files := p.files[HooksDir := Directory];
    }
    p.files := p.files[HookPath := Text(HookContent)];
    p.executables := p.executables + {HookPath};
  }

  // ---------------------------------------------------------------------------
  // Installing commitizen and copying the template

  /** The npm commands `installCommitizen` runs: `npm init -y` only without package.json, and nothing after it fails. */
  function InstallCommands(files: map<string, Entry>, failing: set<string>): (commands: seq<string>)
    ensures PackagePath in files ==> commands == [NpmInstall]
    ensures PackagePath !in files ==> commands == if NpmInit in failing then [NpmInit] else [NpmInit, NpmInstall]
  {
    if PackagePath in files then [NpmInstall]
    else if NpmInit in failing then [NpmInit]
    else [NpmInit, NpmInstall]
  }

  /**
   * `installCommitizen`: a failing command ends the attempt, and the failure is
   * only reported, never passed on. What npm itself writes is not modelled.
   */
  method InstallCommitizen(p: Project, failing: set<string>)
    modifies p`commands
    ensures p.commands == old(p.commands) + InstallCommands(p.files, failing)
  {
    if PackagePath !in p.files {
      p.commands := p.commands + [NpmInit];
      if NpmInit in failing {
        return;
      }
    }
    p.commands := p.commands + [NpmInstall];
  }

  /** `createCommitTemplate`: `'custom'` copies nothing; any other type copies the default template to `cz-config.js`. */
  function TemplateFiles(files: map<string, Entry>, templateType: Value, template: string): (r: map<string, Entry>)
    ensures templateType == Str("custom") ==> r == files
    ensures templateType != Str("custom") ==> r == files[CzConfigPath := Text(template)]
  {
    if templateType == Str("custom") then files else files[CzConfigPath := Text(template)]
  }

  method CreateCommitTemplate(p: Project, templateType: Value, template: string)
    modifies p`files
    ensures p.files == TemplateFiles(old(p.files), templateType, template)
  {
    if templateType == Str("custom") {
      return;
    }
    p.files := p.files[CzConfigPath := Text(template)];
  }

  // ---------------------------------------------------------------------------
  // The whole command

  /** The package.json step: the updated document, or why it was refused. */
  datatype PackageStep = Written(pkg: Value) | Refused(error: SetupError)

  function PackageAfterSetup(files: map<string, Entry>, install: bool): PackageStep
  {
    match ReadPackage(files)
    case None => Refused(PackageUnreadable)
    case Some(v) =>
      match CommitizenUpdate(v, install)
      case None => Refused(PackageTypeError)
      case Some(w) => Written(w)
  }

  /** The files after a successful run: package.json, then the hook if asked for, then the template unless it is custom. */
  function SetupFiles(files: map<string, Entry>, options: SetupOptions, pkg: Value, template: string): map<string, Entry>
  {
    var written := files[PackagePath := Json(pkg)];
    var hooked := if Truthy(options.setupHooks) then WithHook(written) else written;
    TemplateFiles(hooked, Or(options.templateType, Str("default")), template)
  }

  /**
   * `setupCommitTemplate`. Outside a repository, or when package.json cannot be
   * read or updated, it fails before anything is written or run. Otherwise the
   * steps run in order; since package.json exists by the time commitizen is
   * installed, `npm init -y` is never run.
   */
  method SetupCommitTemplate(p: Project, options: SetupOptions, isRepository: bool, failing: set<string>, template: string)
    returns (error: Option<SetupError>)
    modifies p
    ensures !isRepository ==> error == Some(NotARepository)
    ensures isRepository ==>
              var step := PackageAfterSetup(old(p.files), Truthy(options.installCommitizen));
              && (error.None? <==> step.Written?)
              && (step.Refused? ==> error == Some(step.error))
              && (step.Written? ==> p.files == SetupFiles(old(p.files), options, step.pkg, template))
    ensures error.Some? ==> p.files == old(p.files) && p.executables == old(p.executables) && p.commands == old(p.commands)
    ensures error.None? ==> p.executables == old(p.executables) + (if Truthy(options.setupHooks) then {HookPath} else {})
    ensures error.None? ==> p.commands == old(p.commands) + (if Truthy(options.installCommitizen) then [NpmInstall] else [])
  {
    if !isRepository {
      return Some(NotARepository);
    }
    error := SetupCommitizenConfig(p, Truthy(options.installCommitizen));
    if error.Some? {
      return;
    }
    if Truthy(options.setupHooks) {
      SetupGitHooks(p);
    }
    if Truthy(options.installCommitizen) {
      InstallCommitizen(p, failing);
    }
    CreateCommitTemplate(p, Or(options.templateType, Str("default")), template);
  }

  /**
   * A successful run changes nothing but package.json, the hook with its
   * directories, and `cz-config.js`; package.json then holds the updated
   * document, and `cz-config.js` is the default template exactly when the
   * template type is not `'custom'` (a missing type counts as `'default'`).
   */
  lemma SetupFilesShape(files: map<string, Entry>, options: SetupOptions, pkg: Value, template: string)
    ensures var r := SetupFiles(files, options, pkg, template);
            && (forall path :: path in files && path != PackagePath && path != HookPath && path != CzConfigPath ==> path in r && r[path] == files[path])
            && r[PackagePath] == Json(pkg)
            && (Truthy(options.setupHooks) ==> r[HookPath] == Text(HookContent))
            && (!Truthy(options.setupHooks) && HookPath != CzConfigPath ==> (HookPath in r <==> HookPath in files))
            && (options.templateType != Str("custom") ==> r[CzConfigPath] == Text(template))
            && (options.templateType == Str("custom") ==>
                  && (CzConfigPath in r <==> CzConfigPath in files)
                  && (CzConfigPath in files ==> r[CzConfigPath] == files[CzConfigPath]))
  {
    assert Or(options.templateType, Str("default")) == Str("custom") <==> options.templateType == Str("custom");
  }

  /** The commit types the hook's pattern admits. */
  const HookTypes: seq<string> := ["feat", "fix", "docs", "style", "refactor", "test", "chore"]

  /** ` \| #[0-9]+ \| .+` matched at the start of `s`: the issue part and a non-empty description. */
  ghost predicate IssueTailForm(s: string)
  {
    exists id: string, rest: string :: |id| >= 1 && AllDigits(id) && |rest| >= 1 && s == " | #" + id + " | " + rest
  }

  /** The grep pattern matched from the start of a line, as the regular expression reads. */
  ghost predicate HookLineForm(line: string)
  {
    exists t: string, segment: string, tail: string ::
      && t in HookTypes
      && (segment == [] || (|segment| >= 2 && segment[0] == '/'))
      && IssueTailForm(tail)
      && line == t + segment + tail
  }

  /** Recognises the issue part: the digits are the whole digit run after `" | #"`, since a space ends them. */
  predicate IssueTail(s: string)
  {
    && StartsWith(s, " | #")
    && var id := DigitRun(s[4..]);
       && |id| >= 1
       && StartsWith(s[4 + |id|..], " | ")
       && |s| > 4 + |id| + 3
  }

  /** Some position from `k` on starts an issue part. */
  predicate TailFrom(s: string, k: nat)
    decreases |s| - k
  {
    k <= |s| && (IssueTail(s[k..]) || TailFrom(s, k + 1))
  }

  /** What may follow the type: the issue part directly, or after `/` and at least one character. */
  predicate AfterType(s: string)
  {
    IssueTail(s) || (|s| >= 1 && s[0] == '/' && TailFrom(s, 2))
  }

  /** Recognises a line the pattern matches. */
  predicate HookLine(line: string)
  {
    exists i :: 0 <= i < |HookTypes| && StartsWith(line, HookTypes[i]) && AfterType(line[|HookTypes[i]|..])
  }

  /** `grep -qE "$commit_regex" "$1"` succeeds: some line of the message matches. */
  predicate HookAccepts(message: string)
  {
    var lines := Split(message, '\n');
    exists i :: 0 <= i < |lines| && HookLine(lines[i])
  }

  lemma IssueTailSound(s: string)
    requires IssueTail(s)
    ensures IssueTailForm(s)
  {
    var id := DigitRun(s[4..]);
    var rest := s[4 + |id| + 3..];
    assert s == " | #" + id + " | " + rest by {
      assert s == s[..4] + (s[4..4 + |id|] + (s[4 + |id|..4 + |id| + 3] + rest));
    }
  }

  lemma IssueTailComplete(s: string, id: string, rest: string)
    requires |id| >= 1 && AllDigits(id) && |rest| >= 1 && s == " | #" + id + " | " + rest
    ensures IssueTail(s)
  {
    var hash, bar := " | #", " | ";
    Nested(hash, id, bar, rest);
    assert bar[0] == ' ';
    DigitRunStops(id, bar + rest);
  }

  /** The pieces of `p + x + q + r`, read off from the front. */
  lemma Nested(p: string, x: string, q: string, r: string)
    ensures var s := p + x + q + r;
            && s[..|p|] == p && s[|p|..] == x + (q + r)
            && s[|p| + |x|..] == q + r && s[|p| + |x|..][..|q|] == q
  {
    var s := p + x + q + r;
    assert s == p + (x + (q + r));
  }

  lemma IssueTailIff(s: string)
    ensures IssueTail(s) <==> IssueTailForm(s)
  {
    if IssueTail(s) {
      IssueTailSound(s);
    }
    if IssueTailForm(s) {
      var id: string, rest: string :| |id| >= 1 && AllDigits(id) && |rest| >= 1 && s == " | #" + id + " | " + rest;
      IssueTailComplete(s, id, rest);
    }
  }

  lemma {:induction false} TailFromIff(s: string, k: nat)
    ensures TailFrom(s, k) <==> exists j :: k <= j <= |s| && IssueTail(s[j..])
    decreases |s| - k
  {
    if k <= |s| {
      TailFromIff(s, k + 1);
      if IssueTail(s[k..]) {
        assert k <= k <= |s| && IssueTail(s[k..]);
      } else if j :| k <= j <= |s| && IssueTail(s[j..]) {
        assert k + 1 <= j <= |s| && IssueTail(s[j..]);
      }
    }
  }

  lemma FormWitness(line: string, t: string, segment: string, tail: string)
    requires t in HookTypes
    requires segment == [] || (|segment| >= 2 && segment[0] == '/')
    requires IssueTailForm(tail)
    requires line == t + segment + tail
    ensures HookLineForm(line)
  {
  }

  lemma DirectSound(line: string, t: string)
    requires t in HookTypes && StartsWith(line, t) && IssueTail(line[|t|..])
    ensures HookLineForm(line)
  {
    var s := line[|t|..];
    IssueTailIff(s);
    assert line == t + [] + s;
    FormWitness(line, t, [], s);
  }

  lemma ThreeWay(line: string, k: nat, j: nat)
    requires k <= |line| && j <= |line| - k
    ensures line == line[..k] + line[k..][..j] + line[k..][j..]
  {
    var s := line[k..];
    assert s == s[..j] + s[j..];
  }

  lemma SegmentSound(line: string, t: string)
    requires t in HookTypes && StartsWith(line, t)
    requires var s := line[|t|..]; |s| >= 1 && s[0] == '/' && TailFrom(s, 2)
    ensures HookLineForm(line)
  {
    var s := line[|t|..];
    TailFromIff(s, 2);
    var j :| 2 <= j <= |s| && IssueTail(s[j..]);
    IssueTailIff(s[j..]);
    ThreeWay(line, |t|, j);
    FormWitness(line, t, s[..j], s[j..]);
  }

  lemma HookLineSound(line: string)
    requires HookLine(line)
    ensures HookLineForm(line)
  {
    var i :| 0 <= i < |HookTypes| && StartsWith(line, HookTypes[i]) && AfterType(line[|HookTypes[i]|..]);
    var t := HookTypes[i];
    if IssueTail(line[|t|..]) {
      DirectSound(line, t);
    } else {
      SegmentSound(line, t);
    }
  }

  lemma HookLineComplete(line: string, t: string, segment: string, tail: string)
    requires t in HookTypes
    requires segment == [] || (|segment| >= 2 && segment[0] == '/')
    requires IssueTailForm(tail)
    requires line == t + segment + tail
    ensures HookLine(line)
  {
    var i :| 0 <= i < |HookTypes| && HookTypes[i] == t;
    var s := segment + tail;
    TypeThenRest(t, segment, tail);
    AfterTypeOf(segment, tail);
    assert StartsWith(line, HookTypes[i]) && AfterType(line[|HookTypes[i]|..]);
  }

  lemma TypeThenRest(a: string, b: string, c: string)
    ensures var s := a + b + c; s[..|a|] == a && s[|a|..] == b + c
  {
    assert a + b + c == a + (b + c);
  }

  /** Either an empty segment or `/` and at least one more character, then the issue part: the type may be followed by that. */
  lemma AfterTypeOf(segment: string, tail: string)
    requires segment == [] || (|segment| >= 2 && segment[0] == '/')
    requires IssueTailForm(tail)
    ensures AfterType(segment + tail)
  {
    IssueTailIff(tail);
    if segment != [] {
      var s := segment + tail;
      assert s[|segment|..] == tail;
      TailFromIff(s, 2);
    } else {
      assert segment + tail == tail;
    }
  }

  /** The recogniser agrees with the pattern on every line. */
  lemma HookLineIff(line: string)
    ensures HookLine(line) <==> HookLineForm(line)
  {
    if HookLine(line) {
      HookLineSound(line);
    }
    if HookLineForm(line) {
      var t: string, segment: string, tail: string :|
        && t in HookTypes
        && (segment == [] || (|segment| >= 2 && segment[0] == '/'))
        && IssueTailForm(tail)
        && line == t + segment + tail;
      HookLineComplete(line, t, segment, tail);
    }
  }

  /** A message without line breaks is accepted exactly when its one line matches. */
  lemma SingleLineMessage(m: string)
    requires '\n' !in m
    ensures HookAccepts(m) <==> HookLine(m)
  {
    SplitNoSep(m, '\n');
    assert Split(m, '\n')[0] == m;
  }

  /** The first two characters tell the hook's types apart. */
  lemma HookTypeHeads()
    ensures forall i :: 0 <= i < |HookTypes| ==> |HookTypes[i]| >= 3
    ensures forall i, j ::
              (0 <= i < |HookTypes| && 0 <= j < |HookTypes| && HookTypes[i][0] == HookTypes[j][0] && HookTypes[i][1] == HookTypes[j][1])
              ==> i == j
  {
  }

  /** A line starting with `perf`, `ci` or `build` never matches: the pattern leaves those types out. */
  lemma OtherTypesRejected(line: string)
    requires StartsWith(line, "perf") || StartsWith(line, "ci") || StartsWith(line, "build")
    ensures !HookLine(line) && !HookLineForm(line)
  {
    HookLineIff(line);
    assert line[0] == 'p' || (line[0] == 'c' && line[1] == 'i') || line[0] == 'b';
    forall i | 0 <= i < |HookTypes| ensures !StartsWith(line, HookTypes[i]) {
      var t := HookTypes[i];
      assert t[0] != 'p' && t[0] != 'b' && (t[0] == 'c' ==> t[1] == 'h');
    }
  }

  lemma DefaultSegmentThenTail(t: string, branch: string, id: string, subject: string)
    ensures t + ("/[" + (branch + ("] | #" + (id + (" | " + subject)))))
            == t + ("/[" + branch + "]") + (" | #" + id + " | " + subject)
  {
    assert "] | #" == "]" + " | #";
  }

  /**
   * A message in the default format passes the hook when its type is one of
   * the hook's, the task id is digits and the subject is not empty, whatever
   * the branch (the segment `/[branch]` always has the `/` and a character).
   */
  lemma DefaultFormatAccepted(t: string, branch: string, id: string, subject: string)
    requires t in HookTypes && |id| >= 1 && AllDigits(id) && |subject| >= 1
    requires '\n' !in t && '\n' !in branch && '\n' !in id && '\n' !in subject
    ensures HookAccepts(Formatter.DefaultFormat(t, branch, id, subject))
  {
    var m := Formatter.DefaultFormat(t, branch, id, subject);
    var segment, tail := "/[" + branch + "]", " | #" + id + " | " + subject;
    DefaultSegmentThenTail(t, branch, id, subject);
    assert '\n' !in segment && '\n' !in tail;
    assert '\n' !in m;
    assert IssueTailForm(tail);
    HookLineComplete(m, t, segment, tail);
    SingleLineMessage(m);
  }

  /**
   * A task id the prompt accepts may still fail the hook: the prompt checks the
   * trimmed input but the answer keeps its spaces, and `#[0-9]+` needs a digit
   * right after `#`. This holds for the message the session writes whenever the
   * branch and the subject contain no `|`; a subject holding an issue part of
   * its own, such as `x | #5 | y`, would give the pattern another place to match.
   */
  lemma PaddedTaskIdRejected(t: string, branch: string, n: nat, subject: string)
    requires t in HookTypes
    requires '\n' !in branch && '\n' !in subject && '|' !in branch && '|' !in subject
    ensures var id := " " + NatToString(n) + " ";
            && Session.CheckTaskId(id) == Accept
            && !HookAccepts(Formatter.DefaultFormat(t, branch, id, subject))
  {
    Session.NumeralsAreTaskIds(n);
    PaddedMessageRejected(t, branch, NatToString(n), subject);
  }

  /** The default-format message with digits padded by a space on each side fails the hook. */
  lemma PaddedMessageRejected(t: string, branch: string, d: string, subject: string)
    requires t in HookTypes && AllDigits(d)
    requires '\n' !in branch && '\n' !in subject && '|' !in branch && '|' !in subject
    ensures !HookAccepts(Formatter.DefaultFormat(t, branch, " " + d + " ", subject))
  {
    PaddedIdPiece(d);
    OuterPieces(branch, subject);
    PaddedLayout(t, branch, d, subject);
    TwoBarsRejected(t, "/[" + branch + "]", " # " + d + "  ", " " + subject);
  }

  /** The bracketed branch and the spaced subject hold no bar and no line break. */
  lemma OuterPieces(branch: string, subject: string)
    requires '\n' !in branch && '\n' !in subject && '|' !in branch && '|' !in subject
    ensures var seg, v := "/[" + branch + "]", " " + subject;
            '|' !in seg && '\n' !in seg && '|' !in v && '\n' !in v
  {
  }

  /** A one-line message whose only bars follow `seg + " "` and `w`, with no digit two places after the first: the hook rejects it. */
  lemma TwoBarsRejected(t: string, seg: string, w: string, v: string)
    requires t in HookTypes
    requires '|' !in seg && '|' !in w && '|' !in v && '\n' !in seg && '\n' !in w && '\n' !in v
    requires |w| >= 3 && !IsDigit(w[2])
    ensures !HookAccepts(t + (seg + (" |" + (w + ("|" + v)))))
  {
    var after := seg + (" |" + (w + ("|" + v)));
    NoIssuePartIn(seg, w, v);
    HookTypesSingleLine(t);
    assert '\n' !in after;
    NoIssuePartAfter(t, after);
    SingleLineMessage(t + after);
  }

  /** The padded id between `#` and the next bar holds no bar and no line break, and a space follows `# `. */
  lemma PaddedIdPiece(d: string)
    requires AllDigits(d)
    ensures var w := " # " + d + "  "; '|' !in w && '\n' !in w && |w| >= 3 && !IsDigit(w[2])
  {
    var w := " # " + d + "  ";
    assert forall i :: 0 <= i < |w| ==> w[i] == ' ' || w[i] == '#' || IsDigit(w[i]);
  }

  /** The default message with a padded id, cut where the hook's bars are. */
  lemma PaddedLayout(t: string, branch: string, d: string, subject: string)
    ensures Formatter.DefaultFormat(t, branch, " " + d + " ", subject)
            == t + (("/[" + branch + "]") + (" |" + ((" # " + d + "  ") + ("|" + (" " + subject)))))
  {
  }

  lemma HookTypesSingleLine(t: string)
    requires t in HookTypes
    ensures '\n' !in t
  {
  }

  /** Where the recogniser looks for the issue part, there are only two bars, and the id after the first starts with a space. */
  lemma NoIssuePartIn(seg: string, w: string, v: string)
    requires '|' !in seg && '|' !in w && '|' !in v
    requires |w| >= 3 && !IsDigit(w[2])
    ensures var s := seg + (" |" + (w + ("|" + v)));
            forall j :: 0 <= j <= |s| ==> !IssueTail(s[j..])
  {
    var s := seg + (" |" + (w + ("|" + v)));
    forall j | 0 <= j <= |s| ensures !IssueTail(s[j..]) {
      if IssueTail(s[j..]) {
        IssueTailBars(s[j..]);
        BarPositions(seg, w, v, j + 1);
      }
    }
  }

  /** An issue part has a bar at its second character and another one later. */
  lemma IssueTailBars(x: string)
    requires IssueTail(x)
    ensures |x| >= 5 && x[1] == '|' && IsDigit(x[4]) && '|' in x[2..]
  {
    var id := DigitRun(x[4..]);
    assert x[4 + |id|..][1] == '|';
    assert x[2..][2 + |id| + 1] == x[4 + |id| + 1];
  }

  /** The only bars of `seg + " |" + w + "|" + v`. */
  lemma BarPositions(seg: string, w: string, v: string, i: int)
    requires '|' !in seg && '|' !in w && '|' !in v
    requires var s := seg + (" |" + (w + ("|" + v))); 0 <= i < |s| && s[i] == '|'
    ensures i == |seg| + 1 || i == |seg| + 2 + |w|
  {
  }

  /** A hook type followed by text in which no issue part starts: the line does not match. */
  lemma NoIssuePartAfter(t: string, after: string)
    requires t in HookTypes
    requires forall j :: 0 <= j <= |after| ==> !IssueTail(after[j..])
    ensures !HookLine(t + after)
  {
    var line := t + after;
    HookTypeHeads();
    forall i | 0 <= i < |HookTypes| && StartsWith(line, HookTypes[i]) ensures !AfterType(line[|HookTypes[i]|..]) {
      var k :| 0 <= k < |HookTypes| && HookTypes[k] == t;
      assert HookTypes[i][0] == line[0] == HookTypes[k][0];
      assert HookTypes[i][1] == line[1] == HookTypes[k][1];
      assert i == k && line[|t|..] == after && after[0..] == after;
      TailFromIff(after, 2);
    }
  }

  /** A hook type, then ` | #` and an id that does not start with a digit: the hook rejects the single-line message. */
  lemma NonDigitIssueRejected(t: string, id: string, subject: string)
    requires t in HookTypes && '\n' !in t && '\n' !in id && '\n' !in subject
    requires |id| >= 1 && !IsDigit(id[0])
    ensures !HookAccepts(t + " | #" + id + " | " + subject)
  {
    var head := " | #" + id + " | ";
    var m, after := t + head + subject, head + subject;
    assert '\n' !in head;
    assert m == t + " | #" + id + " | " + subject;
    assert m == t + after && '\n' !in m;
    assert after[..4] == " | #" && after[4] == id[0];
    IssueTypeFollowedBy(m, t, after);
    SingleLineMessage(m);
  }

  /** When a line is a hook type followed by text that is neither an issue part nor a `/` segment, no type of the hook can start a match. */
  lemma IssueTypeFollowedBy(line: string, t: string, after: string)
    requires t in HookTypes && line == t + after
    requires |after| >= 5 && after[..4] == " | #" && !IsDigit(after[4])
    ensures !HookLine(line)
  {
    HookTypeHeads();
    forall i | 0 <= i < |HookTypes| && StartsWith(line, HookTypes[i]) ensures HookTypes[i] == t {
      var j :| 0 <= j < |HookTypes| && HookTypes[j] == t;
      assert HookTypes[i][0] == line[0] == HookTypes[j][0];
      assert HookTypes[i][1] == line[1] == HookTypes[j][1];
    }
    assert line[|t|..] == after;
    assert DigitRun(after[4..]) == [];
  }

  lemma FallbackMessage(answers: map<string, Value>, branch: string)
    requires !Truthy(Get(answers, "scope")) && (branch == "main" || branch == "master")
    requires !Truthy(Get(answers, "footer")) && !Truthy(Get(answers, "body")) && !Truthy(Get(answers, "breaking"))
    ensures CzTemplate.CzMessage(answers, branch)
            == ToJsString(Get(answers, "type")) + " | #" + "TBD" + " | " + ToJsString(Get(answers, "subject"))
  {
    CzTemplate.MainBranchHasNoSegment(answers, branch);
    var t, id, subject := ToJsString(Get(answers, "type")), ToJsString(CzTemplate.IssueId(answers)), ToJsString(Get(answers, "subject"));
    var sections := CzTemplate.Sections(answers);
    assert sections == "";
    assert id == "TBD";
    EmptySectionsDropped(t, " | #", id, " | ", subject, sections);
  }

  /** A header followed by empty sections is the header. */
  lemma EmptySectionsDropped(a: string, b: string, c: string, d: string, e: string, f: string)
    requires f == ""
    ensures a + b + c + d + e + f == a + b + c + d + e
  {
  }

  /**
   * The cz template's fallback issue id `TBD` fails the hook: on `main` or
   * `master`, without scope, footer, body or breaking change, its message is
   * rejected even when the type is one of the hook's.
   */
  lemma TemplateFallbackRejected(answers: map<string, Value>, branch: string)
    requires !Truthy(Get(answers, "scope")) && (branch == "main" || branch == "master")
    requires !Truthy(Get(answers, "footer")) && !Truthy(Get(answers, "body")) && !Truthy(Get(answers, "breaking"))
    requires ToJsString(Get(answers, "type")) in HookTypes && '\n' !in ToJsString(Get(answers, "subject"))
    ensures !HookAccepts(CzTemplate.CzMessage(answers, branch))
  {
    var t, subject := ToJsString(Get(answers, "type")), ToJsString(Get(answers, "subject"));
    FallbackMessage(answers, branch);
    HookTypesSingleLine(t);
    TbdIsNoNumber();
    NonDigitIssueRejected(t, "TBD", subject);
  }

  lemma TbdIsNoNumber()
    ensures '\n' !in "TBD" && |"TBD"| >= 1 && !IsDigit("TBD"[0])
  {
  }

  /** Three of the cz template's ten types, and `perf` among the built-in prompt types, are ones the hook rejects. */
  lemma TypesOutsideTheHook()
    ensures CzTemplate.TypeValues(CzTemplate.Types)[7..] == ["perf", "ci", "build"]
    ensures Config.ChoiceValues(Config.DefaultTypes)[5] == Str("perf")
    ensures forall i :: 0 <= i < |HookTypes| ==> HookTypes[i] != "perf" && HookTypes[i] != "ci" && HookTypes[i] != "build"
  {
    CzTemplate.TemplateTypes();
    Config.DefaultTypeValues();
  }
}
