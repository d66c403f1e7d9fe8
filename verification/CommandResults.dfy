/** The result record of a command and the three ways it is ever written. */
module CommandResults {
  import opened Wrappers

  datatype Failure = CheckFailure | InspectFailure | RunFailure

  datatype CommandResult = CommandResult(finished: bool, killed: bool, code: int, error: Option<Failure>)

  /** The result of a command that has not finished. */
  const PENDING := CommandResult(false, false, 0, None)

  function Failed(r: CommandResult, e: Failure): CommandResult {
    r.(finished := true, code := 1, error := Some(e))
  }

  function Killed(r: CommandResult): CommandResult {
    r.(finished := true, code := 1, killed := true)
  }

  function Lower(status: string): string {
    seq(|status|, i requires 0 <= i < |status| =>
      if 'A' <= status[i] <= 'Z' then status[i] - 'A' + 'a' else status[i])
  }

  predicate IsEnded(status: string) {
    Lower(status) == "stopped" || Lower(status) == "exited"
  }

  predicate IsStartable(status: string) {
    Lower(status) == "created" || Lower(status) == "configured"
  }

  predicate IsRunning(status: string) {
    Lower(status) == "running"
  }

  /** A container that has not ended leaves the result as it is. */
  function Inspected(r: CommandResult, status: string, exitCode: int): CommandResult {
    if IsEnded(status) then r.(finished := true, code := exitCode) else r
  }

  /** The same letter, small or capital. */
  predicate SameLetter(a: char, b: char) {
    a == b || ('a' <= b <= 'z' && 'A' <= a <= 'Z' && a as int - 'A' as int == b as int - 'a' as int)
  }

  /** `status` is `word`, which is in small letters, in whatever letters it is written. */
  ghost predicate Spells(status: string, word: string) {
    |status| == |word| && forall i :: 0 <= i < |word| ==> SameLetter(status[i], word[i])
  }

  lemma LowerSpells(status: string, word: string)
    requires forall i :: 0 <= i < |word| ==> 'a' <= word[i] <= 'z'
    ensures Lower(status) == word <==> Spells(status, word)
  {
    if |status| == |word| {
      forall i | 0 <= i < |word| ensures Lower(status)[i] == word[i] <==> SameLetter(status[i], word[i]) {
        assert 'a' <= word[i] <= 'z';
      }
    }
  }

  /** How a container's status is read: which words it ended with, can be started from, or runs under. */
  lemma StatusTells(status: string)
    ensures IsEnded(status) <==> Spells(status, "stopped") || Spells(status, "exited")
    ensures IsStartable(status) <==> Spells(status, "created") || Spells(status, "configured")
    ensures IsRunning(status) <==> Spells(status, "running")
    ensures !(IsEnded(status) && IsStartable(status)) && !(IsEnded(status) && IsRunning(status))
      && !(IsStartable(status) && IsRunning(status))
  {
    LowerSpells(status, "stopped");
    LowerSpells(status, "exited");
    LowerSpells(status, "created");
    LowerSpells(status, "configured");
    LowerSpells(status, "running");
  }
}
