/** The request-side checks of the Docker storlet gateway: the parameter
    checks run when a storlet or a dependency object is uploaded, and the
    fields a storlet invocation request derives from its options. */
module StorletGateway {
  import opened Wrappers
  import opened Strings
  import opened Collections

  /** Python's ValueError raised by the validators. */
  datatype ValueError = ValueError(message: string)

  function MissingParameterMessage(key: string): string {
    "Mandatory parameter is missing: " + key
  }

  /** _check_mandatory_params: passes exactly when every mandatory key is a
      parameter; otherwise the error names a missing key. */
  function CheckMandatoryParams(params: map<string, string>, mandatory: seq<string>): (r: Outcome<ValueError>)
    ensures r.Pass? <==> forall i :: 0 <= i < |mandatory| ==> mandatory[i] in params
    ensures r.Fail? ==> exists i :: 0 <= i < |mandatory| && mandatory[i] !in params &&
                                   r.error == ValueError(MissingParameterMessage(mandatory[i]))
    decreases |mandatory|
  {
    if mandatory == [] then Pass
    else if mandatory[0] !in params then Fail(ValueError(MissingParameterMessage(mandatory[0])))
    else
      var rest := CheckMandatoryParams(params, mandatory[1..]);
      assert forall i :: 1 <= i < |mandatory| ==> mandatory[i] == mandatory[1..][i - 1];
      rest
  }

  const LANGUAGE := "Language"
  const INTERFACE_VERSION := "Interface-Version"
  const MAIN := "Main"
  const DEPENDENCY := "Dependency"
  const DEPENDENCY_VERSION := "Dependency-Version"
  const DEPENDENCY_PERMISSIONS := "Dependency-Permissions"

  const STORLET_MANDATORY: seq<string> := [LANGUAGE, INTERFACE_VERSION, MAIN]
  const DEPENDENCY_MANDATORY: seq<string> := [DEPENDENCY_VERSION]

  /** A Java storlet is a versioned archive: its name holds a '-' and a '.'. */
  predicate JavaNameOk(name: string) {
    '-' in name && '.' in name
  }

  /** The module name of a Python storlet file, its name without ".py". */
  function PythonStem(name: string): string
    requires EndsWith(name, ".py")
  {
    name[..|name| - 3]
  }

  /** The Python rule as the validator checks it: a ".py" file and a Main
      that starts with "<module>." and has exactly two dotted parts. */
  predicate PythonMainOk(name: string, main: string) {
    EndsWith(name, ".py") && StartsWith(main, PythonStem(name) + ".") && |Split(main, '.')| == 2
  }

  /** The same rule read as what it means: Main is "<module>.<class>", with
      neither part holding a dot. */
  predicate PythonMainMeans(name: string, main: string) {
    && EndsWith(name, ".py")
    && '.' !in PythonStem(name)
    && StartsWith(main, PythonStem(name) + ".")
    && '.' !in main[|PythonStem(name)| + 1..]
  }

  /** "<a>.<b>" has exactly two dotted parts exactly when neither a nor b
      holds a dot. */
  lemma TwoDottedParts(a: string, b: string)
    ensures |Split(a + ['.'] + b, '.')| == 2 <==> '.' !in a && '.' !in b
  {
    if '.' !in a {
      SplitFirst(a, '.', b);
      SplitSingle(b, '.');
    } else {
      var i := IndexOf(a, '.');
      var tail := a[i + 1..] + ['.'] + b;
      assert a + ['.'] + b == a[..i] + ['.'] + tail;
      assert '.' !in a[..i] by {
        assert forall j :: 0 <= j < i ==> a[..i][j] == a[j];
      }
      SplitFirst(a[..i], '.', tail);
      assert tail[|a[i + 1..]|] == '.';
      SplitSingle(tail, '.');
      SplitParts(tail, '.');
    }
  }

  lemma PythonMainRule(name: string, main: string)
    ensures PythonMainOk(name, main) <==> PythonMainMeans(name, main)
  {
    if EndsWith(name, ".py") && StartsWith(main, PythonStem(name) + ".") {
      var stem := PythonStem(name);
      assert main == stem + ['.'] + main[|stem| + 1..];
      TwoDottedParts(stem, main[|stem| + 1..]);
    }
  }

  /** The dependency names of a registration: the comma-separated parts of
      a non-empty Dependency parameter, none otherwise. */
  function DeclaredDependencies(params: map<string, string>): seq<string> {
    if DEPENDENCY in params && params[DEPENDENCY] != "" then Split(params[DEPENDENCY], ',') else []
  }

  /** A sequence is free of duplicates exactly when its head is not in its
      tail and its tail is free of duplicates. */
  lemma NoDuplicatesStep(s: seq<string>)
    requires s != []
    ensures NoDuplicates(s) <==> s[0] !in s[1..] && NoDuplicates(s[1..])
  {
    if s[0] !in s[1..] && NoDuplicates(s[1..]) {
      forall i, j | 0 <= i < j < |s| ensures s[i] != s[j] {
        assert s[j] == s[1..][j - 1];
        if i > 0 {
          assert s[i] == s[1..][i - 1];
        }
      }
    }
    if NoDuplicates(s) {
      forall i, j | 0 <= i < j < |s| - 1 ensures s[1..][i] != s[1..][j] {
        assert s[i + 1] != s[j + 1];
      }
      forall j | 0 <= j < |s| - 1 ensures s[1..][j] != s[0] {
        assert s[j + 1] != s[0];
      }
    }
  }

  /** Whether some name occurs twice, as len(deps) != len(set(deps)). */
  function HasDuplicate(s: seq<string>): (r: bool)
    ensures r <==> !NoDuplicates(s)
  {
    if s == [] then false
    else
      NoDuplicatesStep(s);
      s[0] in s[1..] || HasDuplicate(s[1..])
  }

  /** Everything a valid storlet registration satisfies. */
  ghost predicate StorletRegistrationOk(params: map<string, string>, name: string) {
    && LANGUAGE in params && INTERFACE_VERSION in params && MAIN in params
    && (|| (Lower(params[LANGUAGE]) == "java" && JavaNameOk(name))
        || (Lower(params[LANGUAGE]) == "python" && PythonMainMeans(name, params[MAIN])))
    && name !in DeclaredDependencies(params)
    && NoDuplicates(DeclaredDependencies(params))
  }

  function UnsupportedLanguageMessage(language: string): string {
    "Unsupported language: " + language
  }

  /** The name rule of the storlet's language (already lower-cased); any
      language other than java and python is refused. */
  function CheckLanguageRule(language: string, name: string, main: string): (r: Outcome<ValueError>)
    ensures r.Pass? <==> (language == "java" && JavaNameOk(name)) || (language == "python" && PythonMainMeans(name, main))
  {
    PythonMainRule(name, main);
    if language == "java" then
      if JavaNameOk(name) then Pass else Fail(ValueError("Storlet name is incorrect"))
    else if language == "python" then
      if !EndsWith(name, ".py") then Fail(ValueError("Storlet name is incorrect"))
      else if !PythonMainOk(name, main) then Fail(ValueError("Main class should be included in storlet file"))
      else Pass
    else Fail(ValueError(UnsupportedLanguageMessage(language)))
  }

  /** The dependency rule: a storlet is not its own dependency and names
      each dependency once. */
  function CheckDependencies(deps: seq<string>, name: string): (r: Outcome<ValueError>)
    ensures r.Pass? <==> name !in deps && NoDuplicates(deps)
  {
    if name in deps then Fail(ValueError("Using the same name for storlet and dependency is not allowed"))
    else if HasDuplicate(deps) then Fail(ValueError("Duplicated dependencies are included"))
    else Pass
  }

  /** validate_storlet_registration: mandatory keys, then the name rule of
      the (case-insensitive) language, then the declared dependencies. */
  function ValidateStorletRegistration(params: map<string, string>, name: string): (r: Outcome<ValueError>)
    ensures r.Pass? <==> StorletRegistrationOk(params, name)
    ensures r.Fail? && (exists i :: 0 <= i < |STORLET_MANDATORY| && STORLET_MANDATORY[i] !in params) ==>
              exists i :: 0 <= i < |STORLET_MANDATORY| && STORLET_MANDATORY[i] !in params &&
                          r.error == ValueError(MissingParameterMessage(STORLET_MANDATORY[i]))
  {
    var mandatory := CheckMandatoryParams(params, STORLET_MANDATORY);
    if mandatory.Fail? then mandatory
    else
      assert STORLET_MANDATORY[0] in params && STORLET_MANDATORY[1] in params && STORLET_MANDATORY[2] in params;
      var language := CheckLanguageRule(Lower(params[LANGUAGE]), name, params[MAIN]);
      if language.Fail? then language
      else CheckDependencies(DeclaredDependencies(params), name)
  }

  /** The permission bits of a dependency mode that are checked. */
  const OWNER_READ: nat := 0x100
  const GROUP_READ: nat := 0x20
  const OTHER_WRITE: nat := 0x2

  predicate HasBit(mode: nat, bit: nat)
    requires bit > 0
  {
    (mode / bit) % 2 == 1
  }

  /** An acceptable dependency mode: owner- and group-readable, not
      world-writable. */
  predicate ModeAllowed(mode: nat) {
    HasBit(mode, OWNER_READ) && HasBit(mode, GROUP_READ) && !HasBit(mode, OTHER_WRITE)
  }

  /** The same rule on the three octal digits of a mode "ugo": the owner and
      group digits carry read (4), the other digit lacks write (2). */
  lemma ModeDigits(u: nat, g: nat, o: nat)
    requires u < 8 && g < 8 && o < 8
    ensures ModeAllowed(u * 64 + g * 8 + o) <==> u >= 4 && g >= 4 && o % 4 < 2
  {
    var m := u * 64 + g * 8 + o;
    assert m / 0x100 == u / 4;
    assert m / 0x20 == u * 2 + g / 4;
    assert m / 0x2 == u * 32 + g * 4 + o / 2;
  }

  /** What Dependency-Permissions stands for: an octal mode that is allowed. */
  predicate PermissionOk(perm: string) {
    var mode := ParseDigits(perm, 8);
    mode.Some? && ModeAllowed(mode.value)
  }

  /** validate_dependency_registration: the version is mandatory; a given
      permission must parse as an octal mode and be allowed. */
  function ValidateDependencyRegistration(params: map<string, string>, name: string): (r: Outcome<ValueError>)
    ensures r.Pass? <==> DEPENDENCY_VERSION in params &&
                         (DEPENDENCY_PERMISSIONS in params ==> PermissionOk(params[DEPENDENCY_PERMISSIONS]))
    ensures DEPENDENCY_VERSION !in params ==> r == Fail(ValueError(MissingParameterMessage(DEPENDENCY_VERSION)))
  {
    var mandatory := CheckMandatoryParams(params, DEPENDENCY_MANDATORY);
    if mandatory.Fail? then
      assert DEPENDENCY_MANDATORY[0] !in params;
      mandatory
    else if DEPENDENCY_PERMISSIONS !in params then
      assert DEPENDENCY_MANDATORY[0] in params;
      Pass
    else
      assert DEPENDENCY_MANDATORY[0] in params;
      match ParseDigits(params[DEPENDENCY_PERMISSIONS], 8)
      case None => Fail(ValueError("Dependency permission is incorrect"))
      case Some(mode) =>
        if ModeAllowed(mode) then Pass else Fail(ValueError("The owner and group should have read permission"))
  }

  /** The options of a storlet invocation. */
  datatype RequestOptions = RequestOptions(
    storletMain: string,
    storletDependency: Option<string>,
    rangeStart: Option<int>,
    rangeEnd: Option<int>)

  /** DockerStorletRequest: what the gateway keeps of an invocation. */
  datatype DockerStorletRequest = DockerStorletRequest(
    storletId: string,
    params: map<string, string>,
    userMetadata: map<string, string>,
    storletMain: string,
    dependencies: seq<string>,
    start: Option<int>,
    end: Option<int>)
  {
    /** has_range: both ends of the range were given (0 is a given end). */
    predicate HasRange() {
      start.Some? && end.Some?
    }
  }

  /** The dependency names of an invocation, split from a non-empty
      storlet_dependency option. */
  function RequestDependencies(dependency: Option<string>): (deps: seq<string>)
    ensures dependency.None? || dependency.value == "" ==> deps == []
    ensures dependency.Some? && dependency.value != "" ==>
              Join(deps, ",") == dependency.value && forall k :: 0 <= k < |deps| ==> ',' !in deps[k]
  {
    if dependency.Some? && dependency.value != "" then
      JoinSplit(dependency.value, ',');
      SplitParts(dependency.value, ',');
      Split(dependency.value, ',')
    else []
  }

  function NewDockerStorletRequest(storletId: string, params: map<string, string>, metadata: map<string, string>,
                                   options: RequestOptions): (r: DockerStorletRequest)
    ensures r.storletId == storletId && r.params == params && r.userMetadata == metadata
    ensures r.storletMain == options.storletMain
    ensures r.dependencies == RequestDependencies(options.storletDependency)
    ensures r.start == options.rangeStart && r.end == options.rangeEnd
    ensures r.HasRange() <==> options.rangeStart.Some? && options.rangeEnd.Some?
  {
    DockerStorletRequest(storletId, params, metadata, options.storletMain,
                         RequestDependencies(options.storletDependency), options.rangeStart, options.rangeEnd)
  }

  /** The registration parameters of a Java storlet in the unit tests. */
  function JavaParams(dependency: string): map<string, string> {
    map[LANGUAGE := "java", INTERFACE_VERSION := "1.0", DEPENDENCY := dependency,
        "Object-Metadata" := "no", MAIN := "path.to.storlet.class"]
  }

  function PythonParams(main: string): map<string, string> {
    map[LANGUAGE := "python", INTERFACE_VERSION := "1.0", DEPENDENCY := "dep_file",
        "Object-Metadata" := "no", MAIN := main]
  }

  lemma CheckMandatoryExample()
    ensures CheckMandatoryParams(map["keyA" := "valueA", "keyB" := "valueB", "keyC" := "valueC"], ["keyA", "keyB"]).Pass?
    ensures CheckMandatoryParams(map["keyA" := "valueA", "keyB" := "valueB", "keyC" := "valueC"], ["keyA", "KeyD"]).Fail?
  {
    assert "KeyD"[0] != "keyA"[0] && "KeyD"[0] != "keyB"[0] && "KeyD"[0] != "keyC"[0];
  }

  lemma JavaParamsLookup(dependency: string)
    ensures JavaParams(dependency)[LANGUAGE] == "java" && JavaParams(dependency)[MAIN] == "path.to.storlet.class"
    ensures JavaParams(dependency)[DEPENDENCY] == dependency && INTERFACE_VERSION in JavaParams(dependency)
    ensures MAIN !in JavaParams(dependency) - {MAIN}
  {
    assert LANGUAGE[0] == 'L' && INTERFACE_VERSION[0] == 'I' && DEPENDENCY[0] == 'D' && MAIN[0] == 'M';
    assert "Object-Metadata"[0] == 'O';
  }

  lemma PythonParamsLookup(main: string)
    ensures PythonParams(main)[LANGUAGE] == "python" && PythonParams(main)[MAIN] == main
    ensures PythonParams(main)[DEPENDENCY] == "dep_file" && INTERFACE_VERSION in PythonParams(main)
  {
    assert LANGUAGE[0] == 'L' && INTERFACE_VERSION[0] == 'I' && DEPENDENCY[0] == 'D' && MAIN[0] == 'M';
    assert "Object-Metadata"[0] == 'O';
  }

  lemma SingleDependency(dependency: string)
    requires dependency != "" && ',' !in dependency
    ensures Split(dependency, ',') == [dependency]
  {
    SplitSingle(dependency, ',');
  }

  lemma JavaRegistrationAccepted()
    ensures ValidateStorletRegistration(JavaParams("dep_file"), "storlet-1.0.jar").Pass?
  {
    var params, name := JavaParams("dep_file"), "storlet-1.0.jar";
    assert MAIN in params && INTERFACE_VERSION in params && params[LANGUAGE] == "java" && params[DEPENDENCY] == "dep_file" by {
      JavaParamsLookup("dep_file");
    }
    assert Lower(params[LANGUAGE]) == "java";
    assert JavaNameOk(name) by {
      assert name[7] == '-' && name[9] == '.';
    }
    assert DeclaredDependencies(params) == ["dep_file"] by {
      SingleDependency("dep_file");
    }
    assert name !in ["dep_file"] by {
      assert "dep_file"[0] != name[0];
    }
    assert StorletRegistrationOk(params, name);
  }

  /** A Java registration that declares no dependency at all. */
  lemma JavaRegistrationWithoutDependency()
    ensures ValidateStorletRegistration(JavaParams("dep_file") - {DEPENDENCY}, "storlet-1.0.jar").Pass?
  {
    var params, name := JavaParams("dep_file") - {DEPENDENCY}, "storlet-1.0.jar";
    assert MAIN in params && INTERFACE_VERSION in params && params[LANGUAGE] == "java" by {
      JavaParamsLookup("dep_file");
      assert LANGUAGE[0] != DEPENDENCY[0] && MAIN[0] != DEPENDENCY[0] && INTERFACE_VERSION[0] != DEPENDENCY[0];
    }
    assert Lower(params[LANGUAGE]) == "java";
    assert JavaNameOk(name) by {
      assert name[7] == '-' && name[9] == '.';
    }
    assert DeclaredDependencies(params) == [];
    assert StorletRegistrationOk(params, name);
  }

  lemma JavaRegistrationWithoutMain()
    ensures ValidateStorletRegistration(JavaParams("dep_file") - {MAIN}, "storlet-1.0.jar").Fail?
  {
    JavaParamsLookup("dep_file");
  }

  lemma JavaRegistrationBadName()
    ensures ValidateStorletRegistration(JavaParams("dep_file"), "storlet.jar").Fail?
  {
    JavaParamsLookup("dep_file");
    assert Lower("java") == "java";
    assert forall i :: 0 <= i < |"storlet.jar"| ==> "storlet.jar"[i] != '-';
  }

  lemma StorletPyMain()
    ensures PythonMainMeans("storlet.py", "storlet.Storlet")
  {
    assert PythonStem("storlet.py") == "storlet";
    assert "storlet.Storlet"[..8] == "storlet.";
    assert '.' !in "storlet.Storlet"[8..];
  }

  lemma PythonRegistrationAccepted()
    ensures ValidateStorletRegistration(PythonParams("storlet.Storlet"), "storlet.py").Pass?
  {
    var params, name := PythonParams("storlet.Storlet"), "storlet.py";
    assert LANGUAGE in params && INTERFACE_VERSION in params && params[LANGUAGE] == "python" by {
      PythonParamsLookup("storlet.Storlet");
    }
    assert MAIN in params && params[MAIN] == "storlet.Storlet" && params[DEPENDENCY] == "dep_file" by {
      PythonParamsLookup("storlet.Storlet");
    }
    assert Lower(params[LANGUAGE]) == "python";
    assert PythonMainMeans(name, params[MAIN]) by {
      StorletPyMain();
    }
    assert DeclaredDependencies(params) == ["dep_file"] by {
      SingleDependency("dep_file");
    }
    assert name !in ["dep_file"] by {
      assert "dep_file"[0] != name[0];
    }
    assert StorletRegistrationOk(params, name);
  }


  lemma PythonRegistrationBadName()
    ensures ValidateStorletRegistration(PythonParams("storlet.Storlet"), "storlet.pyfoo").Fail?
  {
    PythonParamsLookup("storlet.Storlet");
    assert Lower("python") == "python";
    assert "storlet.pyfoo"[12] != 'y';
  }

  lemma BadPythonMains()
    ensures !PythonMainMeans("storlet.py", "another_storlet.Storlet")
    ensures !PythonMainMeans("storlet.py", "storlet")
    ensures !PythonMainMeans("storlet.py", "storlet.foo.Storlet")
  {
    assert PythonStem("storlet.py") == "storlet";
    assert "another_storlet.Storlet"[0] != "storlet."[0];
    assert "storlet.foo.Storlet"[8..][3] == '.';
  }

  lemma PythonRegistrationBadMain()
    ensures ValidateStorletRegistration(PythonParams("another_storlet.Storlet"), "storlet.py").Fail?
    ensures ValidateStorletRegistration(PythonParams("storlet"), "storlet.py").Fail?
    ensures ValidateStorletRegistration(PythonParams("storlet.foo.Storlet"), "storlet.py").Fail?
  {
    PythonParamsLookup("another_storlet.Storlet");
    PythonParamsLookup("storlet");
    PythonParamsLookup("storlet.foo.Storlet");
    assert Lower("python") == "python";
    BadPythonMains();
  }

  lemma UnsupportedLanguageRejected()
    ensures ValidateStorletRegistration(JavaParams("dep_file")[LANGUAGE := "bar"], "storlet.foo").Fail?
  {
    JavaParamsLookup("dep_file");
    assert Lower("bar") == "bar";
  }

  lemma SelfDependencyRejected()
    ensures ValidateStorletRegistration(JavaParams("storlet-1.0.jar"), "storlet-1.0.jar").Fail?
  {
    JavaParamsLookup("storlet-1.0.jar");
    SingleDependency("storlet-1.0.jar");
  }

  lemma DuplicateDependencyRejected()
    ensures ValidateStorletRegistration(JavaParams("dep_file,dep_file"), "storlet-1.0.jar").Fail?
  {
    var params, deps := JavaParams("dep_file,dep_file"), "dep_file,dep_file";
    assert DEPENDENCY in params && params[DEPENDENCY] == deps by {
      JavaParamsLookup(deps);
    }
    assert Split(deps, ',') == ["dep_file", "dep_file"] by {
      assert deps == "dep_file" + [','] + "dep_file";
      SplitFirst("dep_file", ',', "dep_file");
      SingleDependency("dep_file");
    }
    assert deps != "" by {
      assert deps[0] == 'd';
    }
    var declared := DeclaredDependencies(params);
    assert declared == ["dep_file", "dep_file"];
    assert declared[0] == declared[1];
  }


  lemma DependencyRegistrationExample()
    ensures ValidateDependencyRegistration(map[DEPENDENCY_VERSION := "1.0"], "dep_file").Pass?
    ensures ValidateDependencyRegistration(map[DEPENDENCY_PERMISSIONS := "755", DEPENDENCY_VERSION := "1.0"], "dep_file").Pass?
    ensures ValidateDependencyRegistration(map[DEPENDENCY_PERMISSIONS := "400", DEPENDENCY_VERSION := "1.0"], "dep_file").Fail?
    ensures ValidateDependencyRegistration(map[DEPENDENCY_PERMISSIONS := "foo", DEPENDENCY_VERSION := "1.0"], "dep_file").Fail?
    ensures ValidateDependencyRegistration(map[DEPENDENCY_PERMISSIONS := "888", DEPENDENCY_VERSION := "1.0"], "dep_file").Fail?
  {
    assert ParseDigits("755", 8) == Some(7 * 64 + 5 * 8 + 5);
    ModeDigits(7, 5, 5);
    assert ParseDigits("400", 8) == Some(4 * 64 + 0 * 8 + 0);
    ModeDigits(4, 0, 0);
    assert !IsDigitIn("foo"[0], 8);
    assert !IsDigitIn("888"[0], 8);
  }

  /** Two comma-free names joined by one comma split back into the two. */
  lemma SplitPair(a: string, b: string)
    requires ',' !in a && b != "" && ',' !in b
    ensures Split(a + [','] + b, ',') == [a, b]
  {
    SplitFirst(a, ',', b);
    SingleDependency(b);
  }

  /** The test's dependency option splits at its comma. */
  lemma SplitTwoDependencies()
    ensures Split("dep1,dep2", ',') == ["dep1", "dep2"]
  {
    assert "dep1,dep2" == "dep1" + [','] + "dep2";
    assert ',' !in "dep1" && ',' !in "dep2" by {
      assert forall i :: 0 <= i < 4 ==> "dep1"[i] != ',' && "dep2"[i] != ',';
    }
    SplitPair("dep1", "dep2");
  }

  lemma RequestDependenciesExample()
    ensures NewDockerStorletRequest("Storlet-1.0.jar", map[], map[],
              RequestOptions("org.openstack.storlet.Storlet", Some("dep1,dep2"), None, None)).dependencies == ["dep1", "dep2"]
    ensures NewDockerStorletRequest("Storlet-1.0.jar", map[], map[],
              RequestOptions("org.openstack.storlet.Storlet", None, None, None)).dependencies == []
  {
    SplitTwoDependencies();
  }

  lemma RequestRangeExample()
    ensures !NewDockerStorletRequest("Storlet-1.0.jar", map[], map[],
              RequestOptions("org.openstack.storlet.Storlet", Some("dep1,dep2"), None, None)).HasRange()
    ensures NewDockerStorletRequest("Storlet-1.0.jar", map[], map[],
              RequestOptions("org.openstack.storlet.Storlet", Some("dep1,dep2"), Some(0), Some(6))).HasRange()
  {
  }
}
