/** Records of the fleek configuration file: the git identity, the managed
    systems, a value snapshot of a whole configuration, and the error kinds
    that the configuration core reports. */
module Core {

  /** The git identity stored with each managed system. */
  datatype GitConfig = GitConfig(name: string, email: string)

  /** One managed machine/user pairing. */
  datatype System = System(hostname: string, username: string, arch: string, os: string, git: GitConfig)
  {
    /** The user's home directory: under `/Users` on darwin, under `/home` on every other OS. */
    function HomeDir(): (r: string)
      ensures os == "darwin" ==> r == "/Users/" + username
      ensures os != "darwin" ==> r == "/home/" + username
    {
      var base := if os == "darwin" then "/Users" else "/home";
      base + "/" + username
    }
  }

  /** Two systems with the same home directory have the same user and agree on
      whether they run darwin: the path loses nothing of what it is built from. */
  lemma HomeDirDeterminesUser(a: System, b: System)
    requires a.HomeDir() == b.HomeDir()
    ensures a.username == b.username
    ensures (a.os == "darwin") == (b.os == "darwin")
  {
    var h := a.HomeDir();
    assert h[1] == (if a.os == "darwin" then 'U' else 'h');
    assert h[1] == (if b.os == "darwin" then 'U' else 'h');
    var k := if a.os == "darwin" then 7 else 6;
    assert a.username == h[k..];
    assert b.username == h[k..];
  }

  /** A whole configuration as a value: what is validated and what is written to disk. */
  datatype Snapshot = Snapshot(
    flakeDir: string,
    unfree: bool,
    shell: string,
    bling: string,
    repository: string,
    name: string,
    packages: seq<string>,
    programs: seq<string>,
    aliases: map<string, string>,
    paths: seq<string>,
    ejected: bool,
    systems: seq<System>)

  /** The failures the configuration core reports. */
  datatype ConfigError =
    | MissingFlakeDir
    | InvalidShell
    | InvalidBling
    | InvalidArch
    | InvalidOperatingSystem
    | PackageNotFound
    | ProgramNotFound
      /** An environment step failed: resolving the configuration file's
          location, creating the flake directory, creating, serialising or
          writing the file, finding the home directory, or linking the file
          from it. */
    | IoFailure
      /** First-time setup was not forced and the existing-file probe did not
          report the file missing. */
    | RefuseOverwrite
  {
    /** The errors that validation of a configuration can report. */
    predicate IsValidationError() {
      this in {MissingFlakeDir, InvalidShell, InvalidBling, InvalidArch, InvalidOperatingSystem}
    }
  }

  /** The `error` result of an operation: nil (`Pass`) or the failure. */
  datatype Outcome = Pass | Fail(error: ConfigError)
}
