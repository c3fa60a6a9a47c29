/** Properties of the configuration objects that span several calls, each
    proved from the operations' contracts alone, as a caller would see them. */
module Scenarios {
  import opened JavaLang
  import opened JavaUtil
  import opened Gradle
  import opened Extension
  import opened CustomEntries
  import opened Manifest

  /** A fresh extension derives its module name from the project's name: a
      project called, say, "my-cool-module" gets the module name "my.cool.module". */
  method DefaultModuleName(project: Project, first: string, second: string, third: string)
    returns (e: NbmPluginExtension, name: string)
    requires '-' !in first && '-' !in second && '-' !in third
    requires project.name == first + "-" + second + "-" + third
    ensures e.project == project && name == e.ModuleName()
    ensures name == first + "." + second + "." + third
  {
    e := new NbmPluginExtension(project);
    DashedWords(first, second, third);
    name := e.ModuleName();
  }

  /** An explicit module name wins whatever the project is called; clearing it
      brings back the name derived from the project. */
  method ModuleNameSetThenCleared(e: NbmPluginExtension, name: string) returns (whileSet: string, afterClear: string)
    modifies e
    ensures whileSet == name
    ensures afterClear == Replace(e.project.name, '-', '.') && '-' !in afterClear
  {
    e.SetModuleName(Some(name));
    whileSet := e.ModuleName();
    e.SetModuleName(None);
    afterClear := e.ModuleName();
  }

  /** The derived module name is not cached: it follows the project's current
      name (a rename Gradle itself does not offer; the model's mutable name
      stands in for any change of the value read). */
  method ModuleNameFollowsProject(e: NbmPluginExtension, newName: string) returns (name: string)
    requires e.moduleName == None
    modifies e.project
    ensures name == Replace(newName, '-', '.')
  {
    e.project.name := newName;
    name := e.ModuleName();
  }

  /** The derived specification version is not cached either. */
  method SpecificationVersionFollowsProject(e: NbmPluginExtension, asString: HostValue -> string, newVersion: HostValue)
    returns (version: string)
    requires e.specificationVersion == None
    modifies e.project
    ensures version == asString(newVersion)
  {
    e.project.version := newVersion;
    version := e.SpecificationVersion(asString);
  }

  /** autoupdateShowInClient is on until it is switched off. */
  method AutoupdateShownByDefault(project: Project) returns (before: bool, after: bool)
    ensures before && !after
  {
    var e := new NbmPluginExtension(project);
    before := e.autoupdateShowInClient;
    e.SetAutoupdateShowInClient(false);
    after := e.autoupdateShowInClient;
  }

  /** setLicenseFile(null) undoes an earlier setLicenseFile(x). */
  method LicenseFileCleared(e: NbmPluginExtension, path: HostValue) returns (resolved: Option<File>, cleared: Option<File>)
    modifies e
    ensures resolved == Some(e.project.file(path)) && cleared == None
  {
    e.SetLicenseFile(Some(path));
    resolved := e.licenseFile;
    e.SetLicenseFile(None);
    cleared := e.licenseFile;
  }

  /** setRequires replaces: after two calls only the second list is left, even
      when the first argument was the live list itself. */
  method SetRequiresReplaces(e: NbmPluginExtension, first: List<string>, second: List<string>)
    requires second != e.dependencies
    modifies e.dependencies
    ensures e.dependencies.items == old(second.items)
  {
    var _ := e.SetRequires(first);
    var _ := e.SetRequires(second);
  }

  /** requires appends: the same token twice is kept twice, in order. */
  method RequiresTwice(e: NbmPluginExtension, dependency: string)
    modifies e.dependencies
    ensures e.dependencies.items == old(e.dependencies.items) + [dependency, dependency]
  {
    e.Requires(dependency);
    e.Requires(dependency);
  }

  /** setRequires(getRequires()) empties the list: the clear runs before the
      copy and the argument is the list being cleared. */
  method SetRequiresFromItself(e: NbmPluginExtension) returns (outcome: Outcome)
    modifies e.dependencies
    ensures outcome == Returned && e.dependencies.items == []
  {
    var live := e.GetRequires();
    outcome := e.SetRequires(live);
  }

  /** The list getRequires() handed out earlier shows later appends. */
  method RequiresListIsLive(e: NbmPluginExtension, dependency: string) returns (view: List<string>)
    modifies e.dependencies
    ensures view == e.dependencies && view.items == old(e.dependencies.items) + [dependency]
  {
    view := e.GetRequires();
    e.Requires(dependency);
  }

  /** Two entries under one key: the last one wins. */
  method EntryTwice(c: CustomManifestEntries, key: string, first: HostValue, second: HostValue)
    modifies c.entries
    ensures c.entries.contents == Updated(old(c.entries.contents), key, second)
  {
    c.Entry(key, first);
    c.Entry(key, second);
    UpdatedLastWriteWins(old(c.entries.contents), key, first, second);
  }

  /** The map getEntries() handed out earlier shows later entries. */
  method EntriesMapIsLive(c: CustomManifestEntries, key: string, value: HostValue) returns (view: Map<HostValue>)
    modifies c.entries
    ensures view == c.entries && key in view.contents && view.contents[key] == value
  {
    view := c.GetEntries();
    c.Entry(key, value);
  }

  /** Merging a map and then adding one entry is merging the map with that entry added. */
  method EntriesThenEntry(c: CustomManifestEntries, newEntries: Map<HostValue>, key: string, value: HostValue)
    modifies c.entries
    ensures c.entries.contents == Merged(old(c.entries.contents), Updated(old(newEntries.contents), key, value))
  {
    var _ := c.Entries(newEntries);
    c.Entry(key, value);
    MergedOneMore(old(c.entries.contents), old(newEntries.contents), key, value);
  }

  /** put is idempotent: the same put twice leaves what one put leaves. */
  method PutTwice(m: NbmManifest, key: string, value: string)
    modifies m
    ensures m.entries == Updated(old(m.entries), key, value)
  {
    m.Put(key, value);
    m.Put(key, value);
    UpdatedIdempotent(old(m.entries), key, value);
  }
}
