/** The in-memory configuration and the operations that change it in place:
    adding and removing packages and programs, saving, ejecting, and the
    configuration that first-time setup writes.

    Writing the configuration file is abstracted: `written` logs every
    snapshot that reached the file, and each operation that writes takes
    `ioOk`, the environment's answer to resolving the file's location and
    serialising and writing it. */
module Configuration {
  import opened Core
  import opened Lists
  import opened Validation

  /** What a mutation returns once its change is in place: the validation
      error if the changed configuration breaks a rule, otherwise the result
      of saving it. */
  function ValidateThenSave(s: Snapshot, ioOk: bool): (r: Outcome)
    ensures r == Pass <==> WellFormed(s) && ioOk
    ensures !WellFormed(s) ==> r.Fail? && r.error.IsValidationError()
    ensures WellFormed(s) && !ioOk ==> r == Fail(IoFailure)
  {
    CheckIsWellFormed(s);
    CheckReportsValidationErrors(s);
    if Check(s).Fail? then Check(s)
    else if ioOk then Pass
    else Fail(IoFailure)
  }

  class Config {
    var flakeDir: string
    var unfree: bool
    var shell: string
    var bling: string
    var repository: string
    var name: string
    var packages: seq<string>
    var programs: seq<string>
    var aliases: map<string, string>
    var paths: seq<string>
    var ejected: bool
    var systems: seq<System>

    /** Every snapshot written to the configuration file, oldest first. */
    ghost var written: seq<Snapshot>

    /** A configuration loaded into memory, nothing written yet. */
    constructor (s: Snapshot)
      ensures View() == s && written == []
    {
      flakeDir, unfree, shell, bling := s.flakeDir, s.unfree, s.shell, s.bling;
      repository, name := s.repository, s.name;
      packages, programs, aliases, paths := s.packages, s.programs, s.aliases, s.paths;
      ejected, systems := s.ejected, s.systems;
      written := [];
    }

    /** The configuration's current fields as a value. */
    function View(): Snapshot
      reads this
    {
      Snapshot(flakeDir, unfree, shell, bling, repository, name,
               packages, programs, aliases, paths, ejected, systems)
    }

    /** Writes the whole configuration to its file; the fields do not change. */
    method Save(ioOk: bool) returns (r: Outcome)
      modifies this
      ensures View() == old(View())
      ensures r == if ioOk then Pass else Fail(IoFailure)
      ensures written == if ioOk then old(written) + [View()] else old(written)
    {
      if !ioOk {
        return Fail(IoFailure);
      }
      written := written + [View()];
      return Pass;
    }

    /** Adds a package unless it is already listed. A new package is appended
        and stays appended even when validation then fails; only a valid
        result is saved. */
    method AddPackage(pack: string, ioOk: bool) returns (r: Outcome)
      modifies this
      ensures pack in old(packages) ==> r == Pass && View() == old(View()) && written == old(written)
      ensures pack !in old(packages) ==> View() == old(View()).(packages := old(packages) + [pack])
      ensures pack !in old(packages) ==> r == ValidateThenSave(View(), ioOk)
      ensures written == if pack !in old(packages) && r == Pass then old(written) + [View()] else old(written)
      ensures Distinct(old(packages)) ==> Distinct(packages)
    {
      var found, _ := IndexOf(packages, pack);
      if found {
        return Pass;
      }
      if Distinct(packages) {
        AppendAbsentKeepsDistinct(packages, pack);
      }
      packages := packages + [pack];
      r := Validate(View());
      if r.Fail? {
        return;
      }
      r := Save(ioOk);
    }

    /** Removes the first occurrence of a package. An absent package is
        reported and nothing changes; otherwise the removal stays in place
        even when validation then fails, and only a valid result is saved. */
    method RemovePackage(pack: string, ioOk: bool) returns (r: Outcome)
      modifies this
      ensures pack !in old(packages) ==> r == Fail(PackageNotFound) && View() == old(View()) && written == old(written)
      ensures pack in old(packages) ==> View() == old(View()).(packages := RemoveFirst(old(packages), pack))
      ensures pack in old(packages) ==> r == ValidateThenSave(View(), ioOk)
      ensures written == if pack in old(packages) && r == Pass then old(written) + [View()] else old(written)
      ensures Distinct(old(packages)) ==> Distinct(packages) && pack !in packages
    {
      var found, index := IndexOf(packages, pack);
      if !found {
        return Fail(PackageNotFound);
      }
      RemoveFirstAt(packages, pack, index);
      if Distinct(packages) {
        RemoveFirstKeepsDistinct(packages, pack);
      }
      packages := packages[..index] + packages[index + 1..];
      r := Validate(View());
      if r.Fail? {
        return;
      }
      r := Save(ioOk);
    }

    /** Removes the first occurrence of a program, exactly as `RemovePackage`
        does for packages. */
    method RemoveProgram(prog: string, ioOk: bool) returns (r: Outcome)
      modifies this
      ensures prog !in old(programs) ==> r == Fail(ProgramNotFound) && View() == old(View()) && written == old(written)
      ensures prog in old(programs) ==> View() == old(View()).(programs := RemoveFirst(old(programs), prog))
      ensures prog in old(programs) ==> r == ValidateThenSave(View(), ioOk)
      ensures written == if prog in old(programs) && r == Pass then old(written) + [View()] else old(written)
      ensures Distinct(old(programs)) ==> Distinct(programs) && prog !in programs
    {
      var found, index := IndexOf(programs, prog);
      if !found {
        return Fail(ProgramNotFound);
      }
      RemoveFirstAt(programs, prog, index);
      if Distinct(programs) {
        RemoveFirstKeepsDistinct(programs, prog);
      }
      programs := programs[..index] + programs[index + 1..];
      r := Validate(View());
      if r.Fail? {
        return;
      }
      r := Save(ioOk);
    }

    /** Appends a program whether or not it is already listed, then validates
        and saves as the other mutations do. */
    method AddProgram(prog: string, ioOk: bool) returns (r: Outcome)
      modifies this
      ensures View() == old(View()).(programs := old(programs) + [prog])
      ensures r == ValidateThenSave(View(), ioOk)
      ensures written == if r == Pass then old(written) + [View()] else old(written)
    {
      programs := programs + [prog];
      r := Validate(View());
      if r.Fail? {
        return;
      }
      r := Save(ioOk);
    }

    /** Marks the configuration as ejected and writes it, without validating. */
    method Eject(ioOk: bool) returns (r: Outcome)
      modifies this
      ensures View() == old(View()).(ejected := true)
      ensures r == if ioOk then Pass else Fail(IoFailure)
      ensures written == if ioOk then old(written) + [View()] else old(written)
    {
      ejected := true;
      if !ioOk {
        return Fail(IoFailure);
      }
      written := written + [View()];
      return Pass;
    }
  }

  // ---------------------------------------------------------------------
  // First-time setup
  // ---------------------------------------------------------------------

  /** The configuration first-time setup writes for a flake directory and
      the detected system. It is valid exactly when the directory is given and
      the system is supported. */
  function SampleConfig(location: string, sys: System): (c: Snapshot)
    ensures c.systems == [sys] && c.flakeDir == location && !c.ejected
    ensures c.shell == "bash" && c.bling == "default"
    ensures Check(c) == if location == "" then Fail(MissingFlakeDir) else SystemError(sys)
    ensures WellFormed(c) <==> location != "" && SystemSupported(sys)
  {
    var c := Snapshot(
      location, true, "bash", "default", "", "My Fleek Configuration",
      ["helix"], ["dircolors"], map["cdfleek" := "cd ~/.config/home-manager"],
      ["$HOME/bin", "$HOME/.local/bin"], false, [sys]);
    CheckIsWellFormed(c);
    SystemErrorIsSupport(sys);
    assert [sys][1..] == [];
    c
  }

  /** What first-time setup leaves in the configuration file. */
  datatype FileEffect =
    | Untouched
      /** Created (emptied if it existed) but not filled. */
    | Truncated
    | Written(content: Snapshot)

  /** The error first-time setup returns, together with what it left in the file. */
  datatype SetupResult = SetupResult(outcome: Outcome, file: FileEffect)

  /** First-time setup. The environment's answers are parameters:
      `setupOk` for resolving the file's location and creating the flake
      directory, both before the existing-file probe; `statNotExist` for the
      probe's error being "does not exist"; `createOk` for creating (and so
      emptying) the file; `writeOk` for serialising and writing it; `linkOk`
      for finding the home directory and linking the file from it, which
      happen after the file is written. */
  function WriteSampleConfig(location: string, sys: System, force: bool, setupOk: bool,
                             statNotExist: bool, createOk: bool, writeOk: bool, linkOk: bool): (r: SetupResult)
    ensures r.outcome == Fail(RefuseOverwrite) <==> setupOk && !force && !statNotExist
    ensures r.outcome == Pass <==> setupOk && (force || statNotExist) && createOk && writeOk && linkOk
    ensures r.file != Untouched <==> setupOk && (force || statNotExist) && createOk
    ensures r.file == Truncated <==> setupOk && (force || statNotExist) && createOk && !writeOk
    ensures r.file == Written(SampleConfig(location, sys)) <==> setupOk && (force || statNotExist) && createOk && writeOk
    ensures r.file.Written? ==> r.file.content == SampleConfig(location, sys)
    ensures r.outcome.Fail? && r.outcome.error != RefuseOverwrite ==> r.outcome.error == IoFailure
  {
    if !setupOk then SetupResult(Fail(IoFailure), Untouched)
    else if !(force || statNotExist) then SetupResult(Fail(RefuseOverwrite), Untouched)
    else if !createOk then SetupResult(Fail(IoFailure), Untouched)
    else if !writeOk then SetupResult(Fail(IoFailure), Truncated)
    else if !linkOk then SetupResult(Fail(IoFailure), Written(SampleConfig(location, sys)))
    else SetupResult(Pass, Written(SampleConfig(location, sys)))
  }
}
