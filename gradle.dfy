/** The part of the Gradle build host the extension talks to. The host's own
    behaviour is not part of this model: its values and files are opaque types,
    and its file resolver is a function the project is created with. */
module Gradle {

  /** An arbitrary object handed to the host: a project version, an argument to
      Project.file, a custom manifest value. */
  type HostValue

  /** A java.io.File produced by the host's resolver. */
  type File

  /** org.gradle.api.Project, reduced to what the extension reads. The version
      is a field the host may change at any time. The name is mutable here too,
      which allows more than Gradle does (there a project's name is fixed by the
      build's settings). The extension reads both when asked, never at
      construction. */
  class Project {
    var name: string
    var version: HostValue
    /** project.file(path): resolves a path-like object against the project. */
    const file: HostValue -> File

    constructor (name: string, version: HostValue, file: HostValue -> File)
      ensures this.name == name && this.version == version && this.file == file
    {
      this.name := name;
      this.version := version;
      this.file := file;
    }
  }
}
