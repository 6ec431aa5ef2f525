/**
 * The working directory that the setup and init commands act on: what is at
 * each relative path, which files are executable, and the external commands
 * run in it, in order. The effects of those commands on the files are not
 * part of this model.
 */
module Workspace {
  import opened JsValues

  /**
   * What is at a path: a file whose text parses as JSON (given by the value it
   * denotes), any other file (given by its text), or a directory.
   */
  datatype Entry = Json(value: Value) | Text(content: string) | Directory

  const PackagePath := "package.json"
  const GitDir := ".git"

  class Project {
    var files: map<string, Entry>
    var executables: set<string>
    var commands: seq<string>

    constructor (initial: map<string, Entry>)
      ensures files == initial && executables == {} && commands == []
    {
      files := initial;
      executables := {};
      commands := [];
    }
  }
}
