/**
 * The init script of scripts/init.js: in a git repository with a package.json
 * it adds a `commit` script, writes an example `commit.config.js` and a
 * `.gitignore` when they are missing, and exits with status 1 otherwise.
 *
 * The script is CommonJS and runs in sloppy mode. The text of the example
 * configuration (`createExampleConfig()`) is a parameter.
 */
module Init {
  import opened JsStrings
  import opened JsValues
  import opened Workspace

  const ConfigPath := "commit.config.js"
  const GitignorePath := ".gitignore"
  const GitignoreText := "node_modules/\n.DS_Store\n"
  const CommitScript := Str("commit-template")

  /**
   * The document after `scripts` and `scripts.commit` are filled in; `None`
   * when reading a property of null or undefined throws. An existing truthy
   * `scripts.commit` is left alone.
   */
  function InitPackage(pkg: Value): (r: Option<Value>)
    ensures r.Some? <==> HoldsProperties(pkg)
  {
    if pkg.Undefined? || pkg.Null? then None
    else
      var scripts :=
        if Truthy(Prop(pkg, "scripts")) then Prop(pkg, "scripts")
        else if HoldsProperties(pkg) then Obj(map[])
        else Undefined;  // the assignment is dropped on a primitive, and `.commit` then reads undefined
      if scripts.Undefined? then None
      else
        var updated := if Truthy(Prop(scripts, "commit")) then scripts else SetProperty(scripts, "commit", CommitScript);
        Some(SetProperty(pkg, "scripts", updated))
  }

  /**
   * On an object document: only `scripts` can change and it is always present
   * afterwards. A missing or falsy `scripts` becomes `{ commit: 'commit-template' }`;
   * in a `scripts` object a falsy `commit` becomes `'commit-template'` and a
   * truthy one is kept, with every other script; any other truthy `scripts` is
   * kept as it is.
   */
  lemma InitPackageOnObject(p: map<string, Value>)
    ensures var r := InitPackage(Obj(p));
            && r.Some? && r.value.Obj?
            && r.value.props.Keys == p.Keys + {"scripts"}
            && (forall k :: k in p && k != "scripts" ==> r.value.props[k] == p[k])
            && (!Truthy(Get(p, "scripts")) ==> r.value.props["scripts"] == Obj(map["commit" := CommitScript]))
            && (Truthy(Get(p, "scripts")) && !p["scripts"].Obj? ==> r.value.props["scripts"] == p["scripts"])
            && (Truthy(Get(p, "scripts")) && p["scripts"].Obj? ==>
                  var before, after := p["scripts"].props, r.value.props["scripts"];
                  && after.Obj? && after.props.Keys == before.Keys + {"commit"}
                  && (forall k :: k in before && k != "commit" ==> after.props[k] == before[k])
                  && after.props["commit"] == if Truthy(Get(before, "commit")) then before["commit"] else CommitScript)
  {
    assert map[]["commit" := CommitScript] == map["commit" := CommitScript];
  }

  /** Once the script is there, filling it in again changes nothing. */
  lemma InitPackageIdempotent(pkg: Value)
    requires InitPackage(pkg).Some?
    ensures InitPackage(InitPackage(pkg).value) == InitPackage(pkg)
  {
    if pkg.Obj? {
      InitPackageOnObject(pkg.props);
      var q := InitPackage(pkg).value;
      InitPackageOnObject(q.props);
      var scripts := q.props["scripts"];
      assert Truthy(scripts);
      if scripts.Obj? {
        assert Truthy(Get(scripts.props, "commit"));
      }
      assert InitPackage(q) == Some(SetProperty(q, "scripts", scripts));
      assert q.props["scripts" := scripts] == q.props;
    }
  }

  /**
   * The files after the script, or `None` when it exits with status 1: `.git`
   * or package.json is missing, package.json is not JSON, or its value cannot
   * take a property.
   */
  function InitRun(files: map<string, Entry>, example: string): (r: Option<map<string, Entry>>)
    ensures r.None? <==>
              GitDir !in files || PackagePath !in files || !files[PackagePath].Json? || !HoldsProperties(files[PackagePath].value)
  {
    if GitDir !in files || PackagePath !in files || !files[PackagePath].Json? then None
    else
      match InitPackage(files[PackagePath].value)
      case None => None
      case Some(pkg) =>
        var written := files[PackagePath := Json(pkg)];
        var configured := if ConfigPath in written then written else written[ConfigPath := Text(example)];
        Some(if GitignorePath in configured then configured else configured[GitignorePath := Text(GitignoreText)])
  }

  /**
   * The script exits with status 1 exactly when `.git` or package.json is
   * missing, package.json is not JSON, or it holds a value that cannot take a
   * property; it then writes nothing.
   */
  method RunInit(p: Project, example: string) returns (status: nat)
    modifies p`files
    ensures status == 0 || status == 1
    ensures status == 1 <==> InitRun(old(p.files), example).None?
    ensures status == 1 ==> p.files == old(p.files)
    ensures status == 0 ==> p.files == InitRun(old(p.files), example).value
  {
    if GitDir !in p.files {
      return 1;
    }
    if PackagePath !in p.files {
      return 1;
    }
    if !p.files[PackagePath].Json? {
      return 1;  // JSON.parse throws inside the try
    }
    var pkg := p.files[PackagePath].value;
    ghost var original := pkg;
    if pkg.Undefined? || pkg.Null? {
      return 1;
    }
    // if (!packageJson.scripts) packageJson.scripts = {};
    var scripts := Prop(pkg, "scripts");
    if !Truthy(scripts) {
      scripts := if HoldsProperties(pkg) then Obj(map[]) else Undefined;
      pkg := SetProperty(pkg, "scripts", scripts);
    }
    if scripts.Undefined? {
      return 1;  // reading `.commit` of undefined throws inside the try
    }
    // if (!packageJson.scripts.commit) packageJson.scripts.commit = 'commit-template';
    if !Truthy(Prop(scripts, "commit")) {
      scripts := SetProperty(scripts, "commit", CommitScript);
    }
    SetPropertyTwice(original, "scripts", Obj(map[]), scripts);
    pkg := SetProperty(pkg, "scripts", scripts);  // the scripts object is shared with the document
    if original.Obj? && Truthy(Prop(original, "scripts")) {
      assert original.props["scripts" := original.props["scripts"]] == original.props;
    }
    assert Some(pkg) == InitPackage(original);
    p.files := p.files[PackagePath := Json(pkg)];
    if ConfigPath !in p.files {
      p.files := p.files[ConfigPath := Text(example)];
    }
    if GitignorePath !in p.files {
      p.files := p.files[GitignorePath := Text(GitignoreText)];
    }
    return 0;
  }

  /**
   * A successful run rewrites package.json, writes `commit.config.js` and
   * `.gitignore` only where nothing was, and touches no other path.
   */
  lemma InitRunShape(files: map<string, Entry>, example: string)
    requires InitRun(files, example).Some?
    ensures var r := InitRun(files, example).value;
            && r.Keys == files.Keys + {ConfigPath, GitignorePath}
            && r[PackagePath] == Json(InitPackage(files[PackagePath].value).value)
            && r[ConfigPath] == (if ConfigPath in files then files[ConfigPath] else Text(example))
            && r[GitignorePath] == (if GitignorePath in files then files[GitignorePath] else Text(GitignoreText))
            && (forall path :: path in files && path != PackagePath ==> r[path] == files[path])
  {
  }

  /** Running the script a second time changes nothing. */
  lemma InitRunIdempotent(files: map<string, Entry>, example: string)
    requires InitRun(files, example).Some?
    ensures InitRun(InitRun(files, example).value, example) == InitRun(files, example)
  {
    InitPackageIdempotent(files[PackagePath].value);
    var r := InitRun(files, example).value;
    InitRunShape(files, example);
    assert r[PackagePath := r[PackagePath]] == r;
  }
}
