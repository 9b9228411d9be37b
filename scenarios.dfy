/** Callers of the configuration operations: what a sequence of calls does,
    proved from the operations' contracts and the lemmas about them. */
module Scenarios {
  import opened Core
  import opened Lists
  import opened Validation
  import opened Configuration

  /** Adding the same package twice grows the list by one at most: the second
      call finds the name and does nothing. */
  method AddPackageTwice(c: Config, pack: string, ioOk: bool) returns (first: Outcome, second: Outcome)
    modifies c
    ensures c.packages == if pack in old(c.packages) then old(c.packages) else old(c.packages) + [pack]
    ensures second == Pass
    ensures c.written == if pack !in old(c.packages) && first == Pass then old(c.written) + [c.View()] else old(c.written)
  {
    first := c.AddPackage(pack, ioOk);
    second := c.AddPackage(pack, ioOk);
  }

  /** Adding the same program twice leaves two new entries. */
  method AddProgramTwice(c: Config, prog: string, ioOk: bool) returns (first: Outcome, second: Outcome)
    modifies c
    ensures c.programs == old(c.programs) + [prog, prog]
    ensures multiset(c.programs)[prog] == multiset(old(c.programs))[prog] + 2
  {
    first := c.AddProgram(prog, ioOk);
    second := c.AddProgram(prog, ioOk);
  }

  /** Removing a package just added gives the original list back, and on a
      valid configuration both calls save. */
  method AddThenRemovePackage(c: Config, pack: string) returns (added: Outcome, removed: Outcome)
    requires pack !in c.packages
    modifies c
    ensures c.View() == old(c.View())
    ensures WellFormed(old(c.View())) ==> added == Pass && removed == Pass
    ensures WellFormed(old(c.View())) ==> c.written == old(c.written) + [old(c.View()).(packages := old(c.packages) + [pack]), c.View()]
  {
    ghost var before := c.View();
    added := c.AddPackage(pack, true);
    ghost var mid := c.View();
    assert mid == before.(packages := before.packages + [pack]);
    assert WellFormed(mid) == WellFormed(before);
    ghost var log := c.written;
    RemoveFirstUndoesAppend(before.packages, pack);
    removed := c.RemovePackage(pack, true);
    assert c.View() == before;
    assert WellFormed(before) ==> c.written == log + [before];
  }

  /** With an unsupported shell, adding a package reports the shell and writes
      nothing (the appended package stays in memory), while ejecting succeeds
      and writes. */
  method InvalidShellBlocksAddNotEject(c: Config, pack: string) returns (added: Outcome, ejected: Outcome)
    requires c.flakeDir != "" && !(c.shell == "bash" || c.shell == "zsh") && pack !in c.packages
    modifies c
    ensures added == Fail(InvalidShell)
    ensures ejected == Pass
    ensures c.packages == old(c.packages) + [pack] && c.ejected
    ensures c.written == old(c.written) + [c.View()]
  {
    added := c.AddPackage(pack, true);
    CheckOrder(c.View());
    ejected := c.Eject(true);
  }
}
