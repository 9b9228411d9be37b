# fleek configuration core in Dafny

A model of the in-memory configuration logic of fleek (`internal/core/config.go`).
fleek keeps one user-level YAML file, `.fleek.yml`, that drives the generation of
a home-manager flake. This model covers these parts of it:

- the configuration records: `Config`, `System` and `GitConfig`;
- the validation engine, `Validate` with its helper `isValueInList`;
- the home-directory rule of `System.HomeDir`;
- the four list mutations: `AddPackage`, `RemovePackage`, `AddProgram` and `RemoveProgram`;
- the one-way `Eject` flag;
- the configuration that first-time setup (`WriteSampleConfig`) writes, and its overwrite decision.

Files:

- `core.dfy` (module `Core`): the records, a value `Snapshot` of a whole
  configuration, the error kinds, and `System.HomeDir`.
- `validation.dfy` (module `Validation`): the four fixed value sets.
  - `Check` is the specification function: the first rule broken, in checking order.
  - `WellFormed` is an independent, declarative statement of the rules.
  - `IsValueInList` and `Validate` are the source's loops, proved against `Check` and `WellFormed`.
  - Lemmas state the check order and the "passes iff every rule holds" equivalence.
- `lists.dfy` (module `Lists`): the search loop the mutations share.
  - `RemoveFirst` specifies removal of the first occurrence.
  - Lemmas prove the splice form, the multiset effect, duplicate-freedom and the add/remove round trip.
- `configuration.dfy` (module `Configuration`): `class Config` with one field per
  source field, and the mutations as `modifies this` methods.
  - Saving is an abstract effect. The ghost field `written` logs every snapshot that reached the configuration file.
  - Each writing operation takes `ioOk`. It is the environment's answer to resolving the file location, serialising and writing.
- `scenarios.dfy` (module `Scenarios`): callers that combine operations. Each is proved from the operations' contracts and the lemmas about them:
  - adding a package twice;
  - adding a program twice;
  - adding a package and then removing it;
  - an invalid shell blocks `AddPackage` but not `Eject`.

Two behaviours of the code are kept as they are:

- `AddProgram` appends without checking for duplicates, so the programs list may hold a name twice (`Scenarios.AddProgramTwice`).
- `Save` and `Eject` both write to `c.Location()`, so both append to the same `written` log.

## Model

| member | source | states |
|---|---|---|
| `Core.System.HomeDir` | internal/core/config.go:61-67 | the home directory is `/Users/<username>` when the OS is `darwin` and `/home/<username>` for every other OS |
| `Core.HomeDirDeterminesUser` | internal/core/config.go:61-67 | two systems with the same home directory have the same username and agree on whether they run darwin |
| `Validation.IsValueInList` | internal/core/config.go:122-129 | the linear search returns true exactly when the value occurs in the list |
| `Validation.Validate` | internal/core/config.go:100-120 | the loop returns the specified first failing rule. It returns nil exactly when the flake directory is non-empty, the shell is bash or zsh, the bling level is low, default or high, and every system has arch aarch64 or x86_64 and OS linux or darwin. It reports validation errors only |
| `Validation.CheckOrder` | internal/core/config.go:100-118 | each validation error is returned exactly when its rule is the first one broken. The order is flake directory, then shell, then bling level, then the systems in list order. Within one system, the architecture is checked before the OS |
| `Validation.CheckIsWellFormed` | internal/core/config.go:100-129 | validation passes if and only if every rule holds, with membership in the four fixed sets spelled out as literals |
| `Validation.CheckReportsValidationErrors` | internal/core/config.go:100-120 | validation never reports a not-found, I/O or overwrite error |
| `Validation.SystemErrorIsSupport` | internal/core/config.go:110-117 | one system passes its checks exactly when its arch and OS are supported. It fails with the architecture error exactly when its arch is unsupported, whatever its OS |
| `Validation.FirstSystemErrorPass` | internal/core/config.go:110-119 | the per-system loop passes exactly when every system is supported |
| `Validation.FirstSystemErrorAt` | internal/core/config.go:110-118 | the per-system loop reports the error of the first unsupported system in list order |
| `Lists.IndexOf` | internal/core/config.go:155-163 | the search finds the name exactly when it is listed. The index it returns is the first position holding the name |
| `Lists.RemoveFirst` | internal/core/config.go:165 | removal shortens the list by one when the name is present and keeps its length when absent |
| `Lists.RemoveFirstMultiset` | internal/core/config.go:165 | removal takes exactly one copy of the name out of the multiset of names, none when absent, and leaves every other name's count unchanged |
| `Lists.RemoveFirstAfterPrefix` | internal/core/config.go:157-165 | names before the first occurrence are kept as they are, and removal acts only on the part that follows them |
| `Lists.RemoveFirstAt` | internal/core/config.go:164-166 | removing the first occurrence at position i gives `old[..i] + old[i+1..]`, so the remaining names keep their order |
| `Lists.RemoveFirstAbsent` | internal/core/config.go:164-168 | removing an absent name leaves the list unchanged |
| `Lists.RemoveFirstKeepsDistinct` | internal/core/config.go:165 | on a duplicate-free list, removal keeps the list duplicate-free and leaves no copy of the name |
| `Lists.AppendAbsentKeepsDistinct` | internal/core/config.go:144-147 | appending a name that is not listed keeps a duplicate-free list duplicate-free |
| `Lists.RemoveFirstUndoesAppend` | internal/core/config.go:136-173 | removing a name just appended to a list that lacked it gives the original list back |
| `Configuration.ValidateThenSave` | internal/core/config.go:148-152 | after a mutation, the result is nil exactly when the changed configuration is valid and the write succeeds. An invalid configuration yields its validation error. A valid one whose write fails yields the I/O error |
| `Configuration.Config.Save` | internal/core/config.go:205-234 | saving writes the current configuration to the file when I/O succeeds and changes no field |
| `Configuration.Config.AddPackage` | internal/core/config.go:136-153 | a listed package returns nil and changes and writes nothing. Otherwise the package is appended and stays appended whatever validation says. Only the packages list changes. The configuration is written only if validation and the write succeed. A duplicate-free list stays duplicate-free |
| `Configuration.Config.RemovePackage` | internal/core/config.go:154-174 | an absent package yields the package-not-found error and changes and writes nothing. Otherwise the first occurrence is removed and the removal is kept even when validation fails. Only the packages list changes, and the configuration is written only on success |
| `Configuration.Config.RemoveProgram` | internal/core/config.go:175-195 | same as RemovePackage, on the programs list, with the program-not-found error |
| `Configuration.Config.AddProgram` | internal/core/config.go:196-203 | the program is always appended, even when already listed. Only the programs list changes. The result and the write follow validation and then saving |
| `Configuration.Config.Eject` | internal/core/config.go:365-394 | sets the ejected flag, changes no other field, and writes the configuration without validating it. Success depends only on I/O |
| `Configuration.SampleConfig` | internal/core/config.go:288-306 | the first-time configuration has the bash shell, the default bling level, and only the detected system. Its validation verdict is the missing-flake-directory error or else that system's error. It is valid exactly when the location is non-empty and the system is supported |
| `Configuration.WriteSampleConfig` | internal/core/config.go:307-360 | first-time setup refuses to overwrite, leaving the file untouched, exactly when setup succeeded, force is off and the probe did not report the file missing. The file holds the sample configuration exactly when setup, creation and writing succeeded, even if linking then fails. A failed write after creation leaves the file emptied. The result is nil only when linking succeeded too; every other failure is an I/O error |
| `Scenarios.AddPackageTwice` | internal/core/config.go:136-153 | adding the same package twice grows the list by at most one entry, and the second call returns nil |
| `Scenarios.AddProgramTwice` | internal/core/config.go:196-203 | adding the same program twice leaves two new entries |
| `Scenarios.AddThenRemovePackage` | internal/core/config.go:136-174 | adding a new package and removing it restores the configuration. On a valid configuration, both calls succeed and write |
| `Scenarios.InvalidShellBlocksAddNotEject` | internal/core/config.go:136-153 | with an unsupported shell, AddPackage returns the invalid-shell error, keeps the appended package and writes nothing. Eject (config.go:365-367) succeeds and writes |

## Left out

- YAML serialisation: the marshal, unmarshal-to-map and re-marshal step that puts lists in block style, in `Save`, `WriteSampleConfig` and `Eject`. It belongs to an external YAML library. A write is modelled as logging the whole snapshot.
- File and link I/O: `os.Create`, `os.WriteFile`, `os.Symlink` and `Location()`. Each becomes a boolean parameter that says whether the environment succeeded. The `os.Stat` probe becomes a boolean that says whether its error was "does not exist".
- Configuration.Config.Save: on failure, the model records that nothing was written. In the code, `os.Create` truncates the file before serialisation or writing, so a late failure can leave the file empty or partial.
- Configuration.Config.Eject: on failure, the model records that nothing was written. In the code, `os.WriteFile` truncates the file before writing, so a failed write can leave the file empty or partial.
- Slice aliasing: Go's `append(c.Packages[:index], c.Packages[index+1:]...)` shifts the shared backing array in place. The appends can also write into capacity shared with another slice. Any other holder of the old slice would see those changes. The model's lists are values, so it does not capture this.
- Configuration.WriteSampleConfig: the link itself and the YAML text are not modelled, only whether linking succeeded and which snapshot the file holds. `debug.Log` calls are dropped. A write that fails partway is modelled as an emptied file.
- `ReadConfig`: it reads and unmarshals the file. The constructor of `Config` takes the loaded snapshot as a value instead.
- `Clone`: it runs an external `git` process and creates a link.
- `NewSystem` and `UserFlakeDir`: they read the username, hostname, architecture, OS and home directory from the environment. First-time setup takes the detected `System` as a parameter.
- `Location`, `MakeFlakeDir`, `Username`, `Hostname` and `Arch` are not part of this model.
- The bling package and program lists (`LowPackages`, `HighPrograms` and so on) are not used by any modelled operation.
- Error message text: errors are an enumerated datatype.
- Concurrency: the model assumes one process and one writer.
