/**
 * `WhatsAppBot.force_browser_cleanup`: before every launch the engine
 * removes Chromium's `SingletonLock` file from the session directory,
 * retrying with a back-off while the file is in use and, as a last resort,
 * killing the Playwright browser.
 *
 * The file system and the process table are an oracle: `FileSystem` says
 * whether the lock exists, what each `os.remove` call does (indexed by the
 * call: attempts 0, 1, 2 of the retry loop and 3 after the kill), whether
 * the kill raises and whether the lock is still there after it. The
 * procedure's observable behaviour is its outcome and the sequence of
 * effects it performs (removals, pauses and the kill command).
 */
module ProfileLock {
  import opened Text

  // ---------------------------------------------------------------------------
  // Oracle and effects
  // ---------------------------------------------------------------------------

  /** What one `os.remove(lock_file)` call does. */
  datatype RemoveOutcome = Removed | PermissionDenied(reason: string) | OtherFailure(reason: string)

  /** A call that either returns or raises an exception with a message. */
  datatype Step = Ok | Raise(reason: string)

  datatype FileSystem = FileSystem(
    lockPresent: bool,
    remove: nat -> RemoveOutcome,
    onWindows: bool,
    kill: Step,
    lockAfterKill: bool)

  /** The command that closes Playwright's browser: a shell line on Windows, an argument vector elsewhere. */
  datatype KillCommand = ShellLine(line: string) | Argv(args: seq<string>)

  datatype Effect = Remove(attempt: nat) | Pause(seconds: nat) | RunKill(command: KillCommand)

  datatype CleanupResult = Done | Locked(error: string) | CleanupError(error: string)

  /** The procedure's return value together with what it did. */
  datatype Run = Run(result: CleanupResult, effects: seq<Effect>)

  /** The number of `os.remove` attempts in the retry loop. */
  const Attempts := 3

  function KillCommandFor(onWindows: bool): KillCommand {
    if onWindows then ShellLine("taskkill /F /IM chromium.exe") else Argv(["pkill", "-f", "chromium"])
  }

  /** The `(success, message)` pair the procedure returns. */
  function Succeeded(r: CleanupResult): bool {
    r.Done?
  }

  function Message(r: CleanupResult): (m: string)
    ensures r.Done? ==> m == SuccessMessage
    ensures r.Locked? ==> StartsWith(m, LockedPrefix) && EndsWith(m, r.error)
    ensures r.CleanupError? ==> StartsWith(m, ErrorPrefix) && EndsWith(m, r.error)
  {
    match r
    case Done => SuccessMessage
    case Locked(e) =>
      assert (LockedPrefix + e)[..|LockedPrefix|] == LockedPrefix;
      assert (LockedPrefix + e)[|LockedPrefix + e| - |e|..] == e;
      LockedPrefix + e
    case CleanupError(e) =>
      assert (ErrorPrefix + e)[..|ErrorPrefix|] == ErrorPrefix;
      assert (ErrorPrefix + e)[|ErrorPrefix + e| - |e|..] == e;
      ErrorPrefix + e
  }

  const SuccessMessage := "✅ Cleanup successful"
  const LockedPrefix :=
    "🔒 Browser is locked and could not be force-closed.\nPlease close the Chromium browser window manually and try again.\nError: "
  const ErrorPrefix := "❌ Cleanup error: "

  // ---------------------------------------------------------------------------
  // Specification: a decision table over the oracle
  // ---------------------------------------------------------------------------

  /** The first loop attempt at or after `j` whose removal is not refused with `PermissionError`; `Attempts` if none. */
  function FirstNotDeniedFrom(fs: FileSystem, j: nat): (k: nat)
    requires j <= Attempts
    ensures j <= k <= Attempts
    ensures forall i :: j <= i < k ==> fs.remove(i).PermissionDenied?
    ensures k < Attempts ==> !fs.remove(k).PermissionDenied?
    decreases Attempts - j
  {
    if j == Attempts then Attempts
    else if fs.remove(j).PermissionDenied? then FirstNotDeniedFrom(fs, j + 1)
    else j
  }

  function FirstNotDenied(fs: FileSystem): nat {
    FirstNotDeniedFrom(fs, 0)
  }

  /** The effects of `n` refused loop attempts: each removal, then a pause of `attempt + 1` seconds before a retry. */
  function Backoff(n: nat): (es: seq<Effect>)
    requires n <= Attempts
    ensures |es| == 2 * n - (if n == Attempts then 1 else 0)
  {
    if n == 0 then []
    else Backoff(n - 1) + [Remove(n - 1)] + (if n - 1 < Attempts - 1 then [Pause(n)] else [])
  }

  /** Everything `force_browser_cleanup` can do, as a value. */
  function Cleanup(fs: FileSystem): Run {
    if !fs.lockPresent then Run(Done, [Pause(1)])
    else
      var k := FirstNotDenied(fs);
      if k < Attempts then
        var tried := Backoff(k) + [Remove(k)];
        if fs.remove(k).Removed? then Run(Done, tried + [Pause(1)])
        else Run(CleanupError(fs.remove(k).reason), tried)
      else
        var killed := Backoff(Attempts) + [RunKill(KillCommandFor(fs.onWindows))];
        match fs.kill
        case Raise(e) => Run(Locked(e), killed)
        case Ok =>
          var settled := killed + [Pause(2)];
          if !fs.lockAfterKill then Run(Done, settled + [Pause(1)])
          else
            var retried := settled + [Remove(Attempts)];
            match fs.remove(Attempts)
            case Removed => Run(Done, retried + [Pause(1)])
            case PermissionDenied(e) => Run(Locked(e), retried)
            case OtherFailure(e) => Run(Locked(e), retried)
  }

  // ---------------------------------------------------------------------------
  // The procedure
  // ---------------------------------------------------------------------------

  /**
   * The retry loop as the engine runs it: up to three removals with an early
   * `break` on success, a `return` through the outer handler on any other
   * exception, and the kill path after the third `PermissionError`.
   */
  method ForceBrowserCleanup(fs: FileSystem) returns (result: CleanupResult, effects: seq<Effect>)
    ensures Run(result, effects) == Cleanup(fs)
  {
    effects := [];
    if fs.lockPresent {
      var attempt := 0;
      while attempt < Attempts
        invariant 0 <= attempt <= Attempts
        invariant FirstNotDenied(fs) == FirstNotDeniedFrom(fs, attempt)
        invariant attempt < Attempts ==> effects == Backoff(attempt)
        invariant attempt == Attempts ==> Cleanup(fs) == Run(Done, effects + [Pause(1)])
      {
        effects := effects + [Remove(attempt)];
        match fs.remove(attempt) {
          case Removed =>
            assert FirstNotDenied(fs) == attempt;
            break;
          case OtherFailure(e) =>
            assert FirstNotDenied(fs) == attempt;
            return CleanupError(e), effects;
          case PermissionDenied(_) =>
            if attempt < Attempts - 1 {
              effects := effects + [Pause(attempt + 1)];
            } else {
              assert FirstNotDenied(fs) == Attempts;
              effects := effects + [RunKill(KillCommandFor(fs.onWindows))];
              if fs.kill.Raise? {
                return Locked(fs.kill.reason), effects;
              }
              effects := effects + [Pause(2)];
              if fs.lockAfterKill {
                effects := effects + [Remove(Attempts)];
                if !fs.remove(Attempts).Removed? {
                  return Locked(fs.remove(Attempts).reason), effects;
                }
              }
            }
        }
        attempt := attempt + 1;
      }
    }
    effects := effects + [Pause(1)];
    result := Done;
  }

  // ---------------------------------------------------------------------------
  // Properties
  // ---------------------------------------------------------------------------

  function RemoveCount(es: seq<Effect>): nat {
    if |es| == 0 then 0 else RemoveCount(es[..|es| - 1]) + (if es[|es| - 1].Remove? then 1 else 0)
  }

  function KillCount(es: seq<Effect>): nat {
    if |es| == 0 then 0 else KillCount(es[..|es| - 1]) + (if es[|es| - 1].RunKill? then 1 else 0)
  }

  /** Total seconds spent pausing. */
  function PauseTotal(es: seq<Effect>): nat {
    if |es| == 0 then 0 else PauseTotal(es[..|es| - 1]) + (if es[|es| - 1].Pause? then es[|es| - 1].seconds else 0)
  }

  lemma {:induction false} CountsAppend(a: seq<Effect>, b: seq<Effect>)
    ensures RemoveCount(a + b) == RemoveCount(a) + RemoveCount(b)
    ensures KillCount(a + b) == KillCount(a) + KillCount(b)
    ensures PauseTotal(a + b) == PauseTotal(a) + PauseTotal(b)
    decreases |b|
  {
    if |b| > 0 {
      assert (a + b)[..|a + b| - 1] == a + b[..|b| - 1];
      CountsAppend(a, b[..|b| - 1]);
    } else {
      assert a + b == a;
    }
  }

  /** The counts after one more effect. */
  lemma CountsSnoc(es: seq<Effect>, e: Effect)
    ensures RemoveCount(es + [e]) == RemoveCount(es) + (if e.Remove? then 1 else 0)
    ensures KillCount(es + [e]) == KillCount(es) + (if e.RunKill? then 1 else 0)
    ensures PauseTotal(es + [e]) == PauseTotal(es) + (if e.Pause? then e.seconds else 0)
  {
    assert (es + [e])[..|es|] == es;
  }

  /** `n` refused attempts remove `n` times, never kill, and pause 1 + 2 seconds at most. */
  lemma {:induction false} BackoffCounts(n: nat)
    requires n <= Attempts
    ensures RemoveCount(Backoff(n)) == n
    ensures KillCount(Backoff(n)) == 0
    ensures PauseTotal(Backoff(n)) == (if n == 0 then 0 else if n == 1 then 1 else 3)
    ensures forall i :: 0 <= i < |Backoff(n)| ==> Backoff(n)[i] != Remove(Attempts)
  {
    BackoffRemovals(n);
    if n > 0 {
      BackoffCounts(n - 1);
      var tail := [Remove(n - 1)] + (if n - 1 < Attempts - 1 then [Pause(n)] else []);
      assert Backoff(n) == Backoff(n - 1) + tail;
      CountsAppend(Backoff(n - 1), tail);
      SingleCounts(Remove(n - 1));
      if n - 1 < Attempts - 1 {
        SingleCounts(Pause(n));
        CountsAppend([Remove(n - 1)], [Pause(n)]);
      }
    }
  }

  lemma SingleCounts(e: Effect)
    ensures RemoveCount([e]) == (if e.Remove? then 1 else 0)
    ensures KillCount([e]) == (if e.RunKill? then 1 else 0)
    ensures PauseTotal([e]) == (if e.Pause? then e.seconds else 0)
  {
    assert [e][..0] == [];
  }

  /** With no lock file the procedure succeeds, removes nothing and only waits the final second. */
  lemma NoLockNoRemoval(fs: FileSystem)
    requires !fs.lockPresent
    ensures Cleanup(fs) == Run(Done, [Pause(1)])
    ensures RemoveCount(Cleanup(fs).effects) == 0
  {
    assert [Pause(1)][..0] == [];
  }

  /**
   * The retry protocol's bounds: at most three removals in the loop plus one
   * after the kill, the kill at most once and only after three refusals,
   * and at most 1 + 2 + 2 + 1 seconds of waiting.
   */
  lemma RetryBounds(fs: FileSystem)
    ensures var run := Cleanup(fs);
            && RemoveCount(run.effects) <= Attempts + 1
            && KillCount(run.effects) <= 1
            && (KillCount(run.effects) == 1 <==>
                  fs.lockPresent && forall i :: 0 <= i < Attempts ==> fs.remove(i).PermissionDenied?)
            && PauseTotal(run.effects) <= 6
  {
    if !fs.lockPresent {
      NoLockNoRemoval(fs);
      assert [Pause(1)][..0] == [];
    } else if FirstNotDenied(fs) < Attempts {
      LoopExitBounds(fs);
    } else {
      KillPathBounds(fs);
    }
  }

  lemma LoopExitBounds(fs: FileSystem)
    requires fs.lockPresent && FirstNotDenied(fs) < Attempts
    ensures RemoveCount(Cleanup(fs).effects) <= Attempts
    ensures KillCount(Cleanup(fs).effects) == 0
    ensures PauseTotal(Cleanup(fs).effects) <= 4
    ensures !forall i :: 0 <= i < Attempts ==> fs.remove(i).PermissionDenied?
  {
    var k := FirstNotDenied(fs);
    assert !fs.remove(k).PermissionDenied?;
    TriedCounts(k);
  }

  /** The effects of a loop that stops at attempt `k`, with and without the final pause. */
  lemma TriedCounts(k: nat)
    requires k < Attempts
    ensures var tried := Backoff(k) + [Remove(k)];
            && RemoveCount(tried) == k + 1 && KillCount(tried) == 0 && PauseTotal(tried) <= 3
            && RemoveCount(tried + [Pause(1)]) == k + 1 && KillCount(tried + [Pause(1)]) == 0
            && PauseTotal(tried + [Pause(1)]) <= 4
  {
    BackoffCounts(k);
    var tried := Backoff(k) + [Remove(k)];
    CountsAppend(Backoff(k), [Remove(k)]);
    CountsAppend(tried, [Pause(1)]);
    assert [Remove(k)][..0] == [] && [Pause(1)][..0] == [];
  }

  lemma KillPathBounds(fs: FileSystem)
    requires fs.lockPresent && FirstNotDenied(fs) == Attempts
    ensures RemoveCount(Cleanup(fs).effects) <= Attempts + 1
    ensures KillCount(Cleanup(fs).effects) == 1
    ensures PauseTotal(Cleanup(fs).effects) <= 6
    ensures forall i :: 0 <= i < Attempts ==> fs.remove(i).PermissionDenied?
  {
    BackoffCounts(Attempts);
    var killed := Backoff(Attempts) + [RunKill(KillCommandFor(fs.onWindows))];
    CountsSnoc(Backoff(Attempts), RunKill(KillCommandFor(fs.onWindows)));
    var settled := killed + [Pause(2)];
    CountsSnoc(killed, Pause(2));
    CountsSnoc(settled, Pause(1));
    var retried := settled + [Remove(Attempts)];
    CountsSnoc(settled, Remove(Attempts));
    CountsSnoc(retried, Pause(1));
  }

  /**
   * When the procedure succeeds the lock is gone: either it never existed,
   * or a removal succeeded, or the kill left no lock behind.
   */
  lemma SuccessMeansLockGone(fs: FileSystem)
    ensures Cleanup(fs).result.Done? <==>
              || !fs.lockPresent
              || (FirstNotDenied(fs) < Attempts && fs.remove(FirstNotDenied(fs)).Removed?)
              || (FirstNotDenied(fs) == Attempts && fs.kill.Ok?
                  && (!fs.lockAfterKill || fs.remove(Attempts).Removed?))
  {
  }

  /** Removal stops at the first success: no later removal is tried. */
  lemma StopsAtFirstSuccess(fs: FileSystem, k: nat)
    requires fs.lockPresent && k < Attempts && fs.remove(k).Removed?
    requires forall i :: 0 <= i < k ==> fs.remove(i).PermissionDenied?
    ensures Cleanup(fs).result == Done
    ensures Cleanup(fs).effects == Backoff(k) + [Remove(k), Pause(1)]
    ensures forall i :: 0 <= i < |Cleanup(fs).effects| ==> Cleanup(fs).effects[i] != Remove(k + 1)
  {
    assert FirstNotDenied(fs) == k by {
      FirstNotDeniedIs(fs, 0, k);
    }
    BackoffRemovals(k);
  }

  /** Only `PermissionError` is retried: any other failure of a loop removal ends the procedure with the cleanup error. */
  lemma OtherFailureNotRetried(fs: FileSystem, k: nat)
    requires fs.lockPresent && k < Attempts && fs.remove(k).OtherFailure?
    requires forall i :: 0 <= i < k ==> fs.remove(i).PermissionDenied?
    ensures Cleanup(fs).result == CleanupError(fs.remove(k).reason)
    ensures Message(Cleanup(fs).result) == ErrorPrefix + fs.remove(k).reason
    ensures KillCount(Cleanup(fs).effects) == 0
  {
    assert FirstNotDenied(fs) == k by {
      FirstNotDeniedIs(fs, 0, k);
    }
    RetryBounds(fs);
  }

  /** On the kill path any exception gives the "Browser is locked" message. */
  lemma KillPathFailureIsLocked(fs: FileSystem)
    requires fs.lockPresent && forall i :: 0 <= i < Attempts ==> fs.remove(i).PermissionDenied?
    requires fs.kill.Raise? || (fs.lockAfterKill && !fs.remove(Attempts).Removed?)
    ensures Cleanup(fs).result.Locked?
    ensures StartsWith(Message(Cleanup(fs).result), LockedPrefix)
    ensures !Succeeded(Cleanup(fs).result)
  {
    assert FirstNotDenied(fs) == Attempts by {
      FirstNotDeniedIs(fs, 0, Attempts);
    }
  }

  lemma {:induction false} FirstNotDeniedIs(fs: FileSystem, j: nat, k: nat)
    requires j <= k <= Attempts
    requires forall i :: j <= i < k ==> fs.remove(i).PermissionDenied?
    requires k < Attempts ==> !fs.remove(k).PermissionDenied?
    ensures FirstNotDeniedFrom(fs, j) == k
    decreases k - j
  {
    if j < k {
      FirstNotDeniedIs(fs, j + 1, k);
    }
  }

  lemma {:induction false} BackoffRemovals(n: nat)
    requires n <= Attempts
    ensures forall i :: 0 <= i < |Backoff(n)| && Backoff(n)[i].Remove? ==> Backoff(n)[i].attempt < n
  {
    if n > 0 {
      BackoffRemovals(n - 1);
    }
  }
}
