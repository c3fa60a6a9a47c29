/** The `nbm` build extension: the user's configuration of a NetBeans module
    descriptor, with the two values (module name, specification version) that
    default to the host project's name and version when left unset. */
module Extension {
  import opened JavaLang
  import opened JavaUtil
  import opened Gradle

  /** The owned friend-packages sub-configuration. Its contents are not part of
      this model; only its identity is (created once, never reassigned). */
  class NbmFriendPackages {
    constructor ()
    {
    }
  }

  /** The owned key-store sub-configuration; opaque like NbmFriendPackages. */
  class NbmKeyStoreDef {
    constructor ()
    {
    }
  }

  /** Every mutable part of an extension at one moment, so that a setter can say
      in one clause that it changed its own field and nothing else. */
  datatype Snapshot = Snapshot(
    moduleName: Option<string>,
    cluster: Option<string>,
    specificationVersion: Option<string>,
    implementationVersion: Option<string>,
    eager: bool,
    autoload: bool,
    dependencies: seq<string>,
    localizingBundle: Option<string>,
    moduleInstall: Option<string>,
    licenseFile: Option<File>,
    moduleAuthor: Option<string>,
    homePage: Option<string>,
    needsRestart: Option<bool>,
    layer: Option<string>,
    javaDependency: Option<string>,
    autoupdateShowInClient: bool)

  /** NbmPluginExtension. The plain getters of the source are the fields
      themselves; the `requires` list of the source is `dependencies` here
      (`requires` is a Dafny keyword). */
  class NbmPluginExtension {
    var moduleName: Option<string>
    var cluster: Option<string>
    var specificationVersion: Option<string>
    var implementationVersion: Option<string>
    var eager: bool
    var autoload: bool
    const keyStore: NbmKeyStoreDef
    const project: Project
    const dependencies: List<string>
    var localizingBundle: Option<string>
    var moduleInstall: Option<string>
    const friendPackages: NbmFriendPackages
    var licenseFile: Option<File>
    var moduleAuthor: Option<string>
    var homePage: Option<string>
    var needsRestart: Option<bool>
    var layer: Option<string>
    var javaDependency: Option<string>
    var autoupdateShowInClient: bool

    ghost function State(): Snapshot
      reads this, dependencies
    {
      Snapshot(moduleName, cluster, specificationVersion, implementationVersion,
        eager, autoload, dependencies.items, localizingBundle, moduleInstall, licenseFile,
        moduleAuthor, homePage, needsRestart, layer, javaDependency, autoupdateShowInClient)
    }

    /** A fresh extension: every optional value unset, both loading flags off, no
        dependencies, shown in the autoupdate client, and three new owned objects.
        (A null project is ruled out by the parameter's type.) */
    constructor (project: Project)
      ensures this.project == project
      ensures moduleName == None && cluster == None && specificationVersion == None
      ensures implementationVersion == None && localizingBundle == None && moduleInstall == None
      ensures licenseFile == None && moduleAuthor == None && homePage == None
      ensures needsRestart == None && layer == None && javaDependency == None
      ensures !eager && !autoload && autoupdateShowInClient
      ensures dependencies.items == []
      ensures fresh(dependencies) && fresh(friendPackages) && fresh(keyStore)
    {
      this.project := project;
      moduleName := None;
      cluster := None;
      specificationVersion := None;
      implementationVersion := None;
      localizingBundle := None;
      moduleInstall := None;
      licenseFile := None;
      moduleAuthor := None;
      homePage := None;
      needsRestart := None;
      eager := false;
      autoload := false;
      friendPackages := new NbmFriendPackages();
      keyStore := new NbmKeyStoreDef();
      dependencies := new List<string>();
      autoupdateShowInClient := true;
      layer := None;
      javaDependency := None;
    }

    /** getFriendPackages(): the one owned object, not a copy. */
    method GetFriendPackages() returns (r: NbmFriendPackages)
      ensures r == friendPackages
    {
      r := friendPackages;
    }

    /** getKeyStore(): the one owned object, not a copy. */
    method GetKeyStore() returns (r: NbmKeyStoreDef)
      ensures r == keyStore
    {
      r := keyStore;
    }

    /** getRequires(): the live list, so later Requires/SetRequires calls show
        through it. */
    method GetRequires() returns (r: List<string>)
      ensures r == dependencies
    {
      r := dependencies;
    }

    /** getModuleName(): the explicit name if one is set; otherwise the project's
        current name with every '-' turned into '.', which has the project name's
        length and no '-' left in it. Read from the project on every call. */
    function ModuleName(): (r: string)
      reads this, project
      ensures moduleName.Some? ==> r == moduleName.value
      ensures moduleName.None? ==> |r| == |project.name| && '-' !in r
      ensures moduleName.None? ==> forall i :: 0 <= i < |r| ==>
                (project.name[i] == '-' ==> r[i] == '.') && (project.name[i] != '-' ==> r[i] == project.name[i])
    {
      if moduleName.None? then Replace(project.name, '-', '.') else moduleName.value
    }

    /** getSpecificationVersion(): the explicit version if one is set; otherwise
        the project's current version rendered by `asString` (the host's
        EvaluateUtils.asString). Read from the project on every call. */
    function SpecificationVersion(asString: HostValue -> string): (r: string)
      reads this, project
      ensures specificationVersion.Some? ==> r == specificationVersion.value
      ensures specificationVersion.None? ==> r == asString(project.version)
    {
      if specificationVersion.None? then asString(project.version) else specificationVersion.value
    }

    /** setRequires(list): throws on null and then leaves the list alone; otherwise
        clears the owned list and appends the argument's elements. The owned
        list object is kept. When the argument is the owned list itself (what
        getRequires() returns), clearing it first leaves it empty. */
    method SetRequires(newRequires: List?<string>) returns (outcome: Outcome)
      modifies dependencies
      ensures newRequires == null ==> outcome == Threw(NullPointerException(Some("requires")))
      ensures newRequires == null ==> State() == old(State())
      ensures newRequires != null ==> outcome == Returned
      ensures newRequires != null && newRequires != dependencies ==>
                State() == old(State()).(dependencies := old(newRequires.items))
      ensures newRequires == dependencies ==> State() == old(State()).(dependencies := [])
    {
      if newRequires == null {
        return Threw(NullPointerException(Some("requires")));
      }
      dependencies.Clear();
      dependencies.AddAll(newRequires);
      return Returned;
    }

    /** requires(dependency): appends one token at the end, duplicates kept. */
    method Requires(dependency: string)
      modifies dependencies
      ensures State() == old(State()).(dependencies := old(dependencies.items) + [dependency])
    {
      dependencies.Add(dependency);
    }

    /** setLicenseFile(x): resolves a non-null argument with project.file; null
        clears the license file. */
    method SetLicenseFile(licenseFile: Option<HostValue>)
      modifies this
      ensures licenseFile.None? ==> State() == old(State()).(licenseFile := None)
      ensures licenseFile.Some? ==>
                State() == old(State()).(licenseFile := Some(project.file(licenseFile.value)))
    {
      this.licenseFile := if licenseFile.Some? then Some(project.file(licenseFile.value)) else None;
    }

    method SetNeedsRestart(needsRestart: Option<bool>)
      modifies this
      ensures State() == old(State()).(needsRestart := needsRestart)
    {
      this.needsRestart := needsRestart;
    }

    method SetHomePage(homePage: Option<string>)
      modifies this
      ensures State() == old(State()).(homePage := homePage)
    {
      this.homePage := homePage;
    }

    method SetModuleAuthor(moduleAuthor: Option<string>)
      modifies this
      ensures State() == old(State()).(moduleAuthor := moduleAuthor)
    {
      this.moduleAuthor := moduleAuthor;
    }

    method SetModuleInstall(moduleInstall: Option<string>)
      modifies this
      ensures State() == old(State()).(moduleInstall := moduleInstall)
    {
      this.moduleInstall := moduleInstall;
    }

    method SetLocalizingBundle(localizingBundle: Option<string>)
      modifies this
      ensures State() == old(State()).(localizingBundle := localizingBundle)
    {
      this.localizingBundle := localizingBundle;
    }

    /** setModuleName(x); setting None brings back the derived name. */
    method SetModuleName(moduleName: Option<string>)
      modifies this
      ensures State() == old(State()).(moduleName := moduleName)
    {
      this.moduleName := moduleName;
    }

    method SetCluster(cluster: Option<string>)
      modifies this
      ensures State() == old(State()).(cluster := cluster)
    {
      this.cluster := cluster;
    }

    /** setSpecificationVersion(x); setting None brings back the derived version. */
    method SetSpecificationVersion(specificationVersion: Option<string>)
      modifies this
      ensures State() == old(State()).(specificationVersion := specificationVersion)
    {
      this.specificationVersion := specificationVersion;
    }

    method SetImplementationVersion(implementationVersion: Option<string>)
      modifies this
      ensures State() == old(State()).(implementationVersion := implementationVersion)
    {
      this.implementationVersion := implementationVersion;
    }

    method SetEager(eager: bool)
      modifies this
      ensures State() == old(State()).(eager := eager)
    {
      this.eager := eager;
    }

    method SetAutoload(autoload: bool)
      modifies this
      ensures State() == old(State()).(autoload := autoload)
    {
      this.autoload := autoload;
    }

    method SetLayer(layer: Option<string>)
      modifies this
      ensures State() == old(State()).(layer := layer)
    {
      this.layer := layer;
    }

    method SetJavaDependency(javaDependency: Option<string>)
      modifies this
      ensures State() == old(State()).(javaDependency := javaDependency)
    {
      this.javaDependency := javaDependency;
    }

    method SetAutoupdateShowInClient(autoupdateShowInClient: bool)
      modifies this
      ensures State() == old(State()).(autoupdateShowInClient := autoupdateShowInClient)
    {
      this.autoupdateShowInClient := autoupdateShowInClient;
    }
  }

  /** Dash-separated words become dot-separated words. */
  lemma {:induction false} DashedWords(first: string, second: string, third: string)
    requires '-' !in first && '-' !in second && '-' !in third
    ensures Replace(first + "-" + second + "-" + third, '-', '.') == first + "." + second + "." + third
  {
    assert Replace("-", '-', '.') == ".";
    ReplaceWithoutOldChar(first, '-', '.');
    ReplaceWithoutOldChar(second, '-', '.');
    ReplaceWithoutOldChar(third, '-', '.');
    ReplaceConcat(first + "-" + second + "-", third, '-', '.');
    ReplaceConcat(first + "-" + second, "-", '-', '.');
    ReplaceConcat(first + "-", second, '-', '.');
    ReplaceConcat(first, "-", '-', '.');
  }
}
