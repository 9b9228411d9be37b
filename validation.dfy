/** The validation engine: the four fixed value sets, the rules a
    configuration must satisfy, and the order in which they are checked. */
module Validation {
  import opened Core

  const OperatingSystems: seq<string> := ["linux", "darwin"]
  const Architectures: seq<string> := ["aarch64", "x86_64"]
  const Shells: seq<string> := ["bash", "zsh"]
  const BlingLevels: seq<string> := ["low", "default", "high"]

  // ---------------------------------------------------------------------
  // Specification: the verdict of validation, rule by rule in checking order
  // ---------------------------------------------------------------------

  /** The rule one system breaks, if any: its architecture is checked before its OS. */
  function SystemError(s: System): Outcome {
    if s.arch !in Architectures then Fail(InvalidArch)
    else if s.os !in OperatingSystems then Fail(InvalidOperatingSystem)
    else Pass
  }

  /** The error of the first system, in list order, that breaks a rule. */
  function FirstSystemError(systems: seq<System>): Outcome {
    if systems == [] then Pass
    else if SystemError(systems[0]).Fail? then SystemError(systems[0])
    else FirstSystemError(systems[1..])
  }

  /** The verdict of validation: the first rule, in checking order, that `c` breaks. */
  function Check(c: Snapshot): Outcome {
    if c.flakeDir == "" then Fail(MissingFlakeDir)
    else if c.shell !in Shells then Fail(InvalidShell)
    else if c.bling !in BlingLevels then Fail(InvalidBling)
    else FirstSystemError(c.systems)
  }

  // ---------------------------------------------------------------------
  // Independent, declarative statement of a well-formed configuration
  // ---------------------------------------------------------------------

  /** A system on a supported architecture and operating system. */
  predicate SystemSupported(s: System) {
    && (s.arch == "aarch64" || s.arch == "x86_64")
    && (s.os == "linux" || s.os == "darwin")
  }

  /** The rules on the configuration's own fields: flake directory, shell and bling level. */
  predicate GlobalRulesHold(c: Snapshot) {
    && c.flakeDir != ""
    && (c.shell == "bash" || c.shell == "zsh")
    && (c.bling == "low" || c.bling == "default" || c.bling == "high")
  }

  /** Every rule holds. */
  predicate WellFormed(c: Snapshot) {
    GlobalRulesHold(c) && forall s :: s in c.systems ==> SystemSupported(s)
  }

  /** Position `i` holds the first system that is not supported. */
  predicate FirstUnsupportedAt(systems: seq<System>, i: int) {
    && 0 <= i < |systems|
    && !SystemSupported(systems[i])
    && forall j :: 0 <= j < i ==> SystemSupported(systems[j])
  }

  // ---------------------------------------------------------------------
  // The code: membership search and the validation loop
  // ---------------------------------------------------------------------

  /** Linear search: whether `value` occurs in `list`. */
  method IsValueInList(value: string, list: seq<string>) returns (found: bool)
    ensures found <==> value in list
  {
    for i := 0 to |list|
      invariant value !in list[..i]
    {
      if list[i] == value {
        return true;
      }
    }
    return false;
  }

  /** Checks the rules in order and returns the first that fails. */
  method Validate(c: Snapshot) returns (r: Outcome)
    ensures r == Check(c)
    ensures r == Pass <==> WellFormed(c)
    ensures r.Fail? ==> r.error.IsValidationError()
  {
    CheckIsWellFormed(c);
    CheckReportsValidationErrors(c);
    if c.flakeDir == "" {
      return Fail(MissingFlakeDir);
    }
    var ok := IsValueInList(c.shell, Shells);
    if !ok {
      return Fail(InvalidShell);
    }
    ok := IsValueInList(c.bling, BlingLevels);
    if !ok {
      return Fail(InvalidBling);
    }
    var i := 0;
    while i < |c.systems|
      invariant 0 <= i <= |c.systems|
      invariant FirstSystemError(c.systems) == FirstSystemError(c.systems[i..])
    {
      assert c.systems[i..][0] == c.systems[i] && c.systems[i..][1..] == c.systems[i + 1..];
      ok := IsValueInList(c.systems[i].arch, Architectures);
      if !ok {
        return Fail(InvalidArch);
      }
      ok := IsValueInList(c.systems[i].os, OperatingSystems);
      if !ok {
        return Fail(InvalidOperatingSystem);
      }
      i := i + 1;
    }
    return Pass;
  }

  // ---------------------------------------------------------------------
  // Properties of the verdict
  // ---------------------------------------------------------------------

  /** A system passes its own checks exactly when it is supported. */
  lemma SystemErrorIsSupport(s: System)
    ensures SystemError(s) == Pass <==> SystemSupported(s)
    ensures SystemError(s) == Fail(InvalidArch) <==> !(s.arch == "aarch64" || s.arch == "x86_64")
  {
  }

  /** The systems pass exactly when every one of them is supported. */
  lemma {:induction false} FirstSystemErrorPass(systems: seq<System>)
    ensures FirstSystemError(systems) == Pass <==> forall s :: s in systems ==> SystemSupported(s)
  {
    if systems != [] {
      SystemErrorIsSupport(systems[0]);
      FirstSystemErrorPass(systems[1..]);
      assert systems == [systems[0]] + systems[1..];
    }
  }

  /** The systems' verdict is the verdict of the first unsupported system. */
  lemma {:induction false} FirstSystemErrorAt(systems: seq<System>, i: int)
    requires FirstUnsupportedAt(systems, i)
    ensures FirstSystemError(systems) == SystemError(systems[i])
  {
    SystemErrorIsSupport(systems[0]);
    if i > 0 {
      assert FirstUnsupportedAt(systems[1..], i - 1);
      FirstSystemErrorAt(systems[1..], i - 1);
    }
  }

  /** There is at most one first unsupported system. */
  lemma FirstUnsupportedUnique(systems: seq<System>, i: int, j: int)
    requires FirstUnsupportedAt(systems, i) && FirstUnsupportedAt(systems, j)
    ensures i == j
  {
  }

  /** Some system is unsupported, so there is a first one. */
  lemma {:induction false} FirstUnsupportedExists(systems: seq<System>) returns (i: int)
    requires exists s :: s in systems && !SystemSupported(s)
    ensures FirstUnsupportedAt(systems, i)
  {
    if SystemSupported(systems[0]) {
      var j := FirstUnsupportedExists(systems[1..]);
      i := j + 1;
    } else {
      i := 0;
    }
  }

  /** Validation passes exactly when every rule holds. */
  lemma CheckIsWellFormed(c: Snapshot)
    ensures Check(c) == Pass <==> WellFormed(c)
  {
    FirstSystemErrorPass(c.systems);
  }

  /** Validation reports only validation errors. */
  lemma {:induction false} CheckReportsValidationErrors(c: Snapshot)
    ensures Check(c).Fail? ==> Check(c).error.IsValidationError()
  {
    if GlobalRulesHold(c) && exists s :: s in c.systems && !SystemSupported(s) {
      var i := FirstUnsupportedExists(c.systems);
      FirstSystemErrorAt(c.systems, i);
    } else {
      FirstSystemErrorPass(c.systems);
    }
  }

  /** The order of the checks: each error is reported exactly when its rule is
      the first one broken, with the flake directory before the shell, the shell
      before the bling level, the bling level before any system, the systems in
      list order, and within one system the architecture before the OS. */
  lemma CheckOrder(c: Snapshot)
    ensures Check(c) == Fail(MissingFlakeDir) <==> c.flakeDir == ""
    ensures Check(c) == Fail(InvalidShell) <==> c.flakeDir != "" && !(c.shell == "bash" || c.shell == "zsh")
    ensures Check(c) == Fail(InvalidBling) <==>
      && c.flakeDir != "" && (c.shell == "bash" || c.shell == "zsh")
      && !(c.bling == "low" || c.bling == "default" || c.bling == "high")
    ensures Check(c) == Fail(InvalidArch) <==>
      && GlobalRulesHold(c)
      && exists i :: FirstUnsupportedAt(c.systems, i) && !(c.systems[i].arch == "aarch64" || c.systems[i].arch == "x86_64")
    ensures Check(c) == Fail(InvalidOperatingSystem) <==>
      && GlobalRulesHold(c)
      && exists i :: FirstUnsupportedAt(c.systems, i) && (c.systems[i].arch == "aarch64" || c.systems[i].arch == "x86_64")
  {
    if GlobalRulesHold(c) && exists s :: s in c.systems && !SystemSupported(s) {
      var i := FirstUnsupportedExists(c.systems);
      FirstSystemErrorAt(c.systems, i);
      SystemErrorIsSupport(c.systems[i]);
      forall j | FirstUnsupportedAt(c.systems, j) ensures j == i {
        FirstUnsupportedUnique(c.systems, i, j);
      }
    } else {
      FirstSystemErrorPass(c.systems);
    }
  }
}
