/**
 * The browser lifecycle of `WhatsAppBot`: `launch_browser`,
 * `close_browser` and `reset_session`, over the three handle fields the
 * bot keeps (`playwright`, `context`, `page`).
 *
 * Playwright and the file system are oracles. A handle is an opaque object
 * identity; the engine oracle says what each library call does, and every
 * method returns the calls it made, in order, so that the model can state
 * which resources are touched and which are released.
 */
module Session {
  import opened Wrappers
  import opened Text
  import Columns
  import ProfileLock

  // ---------------------------------------------------------------------------
  // Handles, oracles and calls
  // ---------------------------------------------------------------------------

  /** An opaque Playwright object (the driver, a browser context or a page). */
  datatype Handle = Handle(id: nat)

  /** The bot's three fields. */
  datatype Handles = Handles(playwright: Option<Handle>, context: Option<Handle>, page: Option<Handle>)

  const NoHandles := Handles(None, None, None)

  type Step = ProfileLock.Step

  /** What closing each resource does. */
  datatype Closer = Closer(closePage: Step, closeContext: Step, stopPlaywright: Step)

  /** `sync_playwright().start()`: a driver, `NotImplementedError`, or any other exception. */
  datatype StartOutcome = Started(driver: Handle) | NotImplemented | StartFailed(reason: string)

  /** `launch_persistent_context`: a context and its open pages, a `PlaywrightError`, or any other exception. */
  datatype LaunchOutcome = Opened(context: Handle, pages: seq<Handle>) | LaunchRefused(reason: string) | LaunchFailed(reason: string)

  /** A call that returns a handle or raises. */
  datatype HandleCall = Returned(handle: Handle) | CallFailed(reason: string)

  /** Everything `launch_browser` asks of the outside world after the lock cleanup. */
  datatype Engine = Engine(makeDirs: Step, start: StartOutcome, launch: LaunchOutcome, newPage: HandleCall, gotoHome: Step)

  datatype Call =
    | ClosePage | CloseContext | StopPlaywright
    | MakeSessionDir | StartPlaywright | LaunchContext | NewPage | GotoHome
    | RemoveSessionDir
    | Sleep(seconds: nat)

  // ---------------------------------------------------------------------------
  // Messages
  // ---------------------------------------------------------------------------

  const CloseSuccessMessage := "✅ Browser closed successfully"
  const CloseErrorPrefix := "⚠️ Error closing browser: "
  const ResetDoneMessage := "✅ Session reset successfully."
  const NoSessionMessage := "✅ No session data found."
  const ResetErrorPrefix := "❌ Error resetting session: "
  const LaunchSuccessMessage := "✅ Browser launched successfully! Please scan QR code if prompted."
  const Python313Message :=
    "❌ Python 3.13 Compatibility Issue!\n\nPlaywright doesn't fully support Python 3.13 yet.\n\nPlease install Python 3.12 from:\nhttps://www.python.org/downloads/\n\nSee PYTHON_313_FIX.md for detailed instructions."
  const BrowserLockedMessage := "🔒" + " Browser is locked. Please close any open Chromium windows manually and try again."
  const LaunchErrorPrefix := "❌" + " Browser launch error: "
  const UnexpectedErrorPrefix := "❌ Unexpected error: "

  /** The phrases that mark a `PlaywrightError` from the launch as a locked profile. */
  const LockPhrases: seq<string> := ["target closed", "singleton", "lock"]

  /** The longest part of an exception message that ends up in a launch error. */
  const MessageLimit := 200

  /**
   * The message for a `PlaywrightError` raised by the launch: the locked
   * message when the lower-cased error names one of the lock phrases, and
   * otherwise the first 200 characters of the error after a prefix.
   */
  function ClassifyLaunchError(error: string): (m: string)
    ensures m == BrowserLockedMessage <==> Columns.HasKeyword(LockPhrases, error)
    ensures !Columns.HasKeyword(LockPhrases, error) ==>
              && StartsWith(m, LaunchErrorPrefix)
              && |m| <= |LaunchErrorPrefix| + MessageLimit
              && StartsWith(error, m[|LaunchErrorPrefix|..])
              && (|error| <= MessageLimit ==> m == LaunchErrorPrefix + error)
  {
    if Columns.HasKeyword(LockPhrases, error) then BrowserLockedMessage
    else
      var m := LaunchErrorPrefix + Take(error, MessageLimit);
      assert m[..|LaunchErrorPrefix|] == LaunchErrorPrefix;
      assert m[|LaunchErrorPrefix|..] == Take(error, MessageLimit);
      assert m != BrowserLockedMessage by {
        assert LaunchErrorPrefix[0] == "❌"[0] && BrowserLockedMessage[0] == "🔒"[0];
        assert m[0] == LaunchErrorPrefix[0];
      }
      m
  }

  /** The classification does not depend on letter case. */
  lemma ClassifyIgnoresCase(error: string)
    ensures (ClassifyLaunchError(Lower(error)) == BrowserLockedMessage) == (ClassifyLaunchError(error) == BrowserLockedMessage)
  {
    LowerIdempotent(error);
  }

  /** `f"❌ Unexpected error: {str(e)[:200]}"`. */
  function UnexpectedError(error: string): (m: string)
    ensures StartsWith(m, UnexpectedErrorPrefix)
    ensures |m| <= |UnexpectedErrorPrefix| + MessageLimit
    ensures StartsWith(error, m[|UnexpectedErrorPrefix|..])
  {
    var m := UnexpectedErrorPrefix + Take(error, MessageLimit);
    assert m[..|UnexpectedErrorPrefix|] == UnexpectedErrorPrefix;
    assert m[|UnexpectedErrorPrefix|..] == Take(error, MessageLimit);
    m
  }

  // ---------------------------------------------------------------------------
  // Specification of close_browser
  // ---------------------------------------------------------------------------

  /** One close step: whether its handle is set, the call, and what the call does. */
  datatype Release = Release(present: bool, call: Call, step: Step)

  /** The calls made and the first exception, releasing in order and stopping at the first failure. */
  datatype Teardown = Teardown(calls: seq<Call>, failure: Option<string>)

  /** One step of the teardown in front of what the later steps do. */
  function ReleaseStep(s: Release, rest: Teardown): Teardown {
    if !s.present then rest
    else match s.step
      case Raise(e) => Teardown([s.call], Some(e))
      case Ok => Teardown([s.call] + rest.calls, rest.failure)
  }

  function ReleaseAll(steps: seq<Release>): (t: Teardown)
    ensures |t.calls| <= |steps|
    ensures forall c :: c in t.calls ==> exists s :: s in steps && s.present && s.call == c
    ensures t.failure.None? <==> forall s :: s in steps && s.present ==> s.step.Ok?
  {
    if |steps| == 0 then Teardown([], None)
    else
      assert forall x :: x in steps[1..] ==> x in steps;
      ReleaseStep(steps[0], ReleaseAll(steps[1..]))
  }

  function ReleasePlan(h: Handles, io: Closer): seq<Release> {
    [Release(h.page.Some?, ClosePage, io.closePage),
     Release(h.context.Some?, CloseContext, io.closeContext),
     Release(h.playwright.Some?, StopPlaywright, io.stopPlaywright)]
  }

  /** The three-step plan, unfolded. */
  lemma PlanUnfolds(h: Handles, io: Closer)
    ensures var plan := ReleasePlan(h, io);
            ReleaseAll(plan) == ReleaseStep(plan[0], ReleaseStep(plan[1], ReleaseStep(plan[2], Teardown([], None))))
  {
    var plan := ReleasePlan(h, io);
    assert ReleaseAll(plan[2..][1..]) == Teardown([], None);
    assert ReleaseAll(plan[2..]) == ReleaseStep(plan[2], Teardown([], None));
    assert plan[1..][1..] == plan[2..];
    assert ReleaseAll(plan[1..]) == ReleaseStep(plan[1], ReleaseAll(plan[2..]));
  }

  /** The return value, the new fields and the calls of one `close_browser`. */
  datatype CloseRun = CloseRun(ok: bool, message: string, state: Handles, calls: seq<Call>)

  function Close(h: Handles, io: Closer): CloseRun {
    var t := ReleaseAll(ReleasePlan(h, io));
    match t.failure
    case None => CloseRun(true, CloseSuccessMessage, NoHandles, t.calls + [Sleep(2)])
    case Some(e) => CloseRun(false, CloseErrorPrefix + e, h, t.calls)
  }

  /**
   * `close_browser` succeeds exactly when every set handle closes; on
   * success all three fields are cleared, and on failure none of them is.
   * A resource is only closed when its handle is set.
   */
  lemma CloseOutcome(h: Handles, io: Closer)
    ensures var r := Close(h, io);
            && (r.ok <==> (h.page.Some? ==> io.closePage.Ok?)
                          && (h.context.Some? ==> io.closeContext.Ok?)
                          && (h.playwright.Some? ==> io.stopPlaywright.Ok?))
            && (r.ok ==> r.state == NoHandles && r.message == CloseSuccessMessage)
            && (!r.ok ==> r.state == h && StartsWith(r.message, CloseErrorPrefix))
            && (ClosePage in r.calls ==> h.page.Some?)
            && (CloseContext in r.calls ==> h.context.Some?)
            && (StopPlaywright in r.calls ==> h.playwright.Some?)
  {
    var plan := ReleasePlan(h, io);
    var t := ReleaseAll(plan);
    assert plan[0].call == ClosePage && plan[1].call == CloseContext && plan[2].call == StopPlaywright;
    assert forall s :: s in plan ==> s == plan[0] || s == plan[1] || s == plan[2];
    if t.failure.Some? {
      var e := t.failure.value;
      assert (CloseErrorPrefix + e)[..|CloseErrorPrefix|] == CloseErrorPrefix;
    } else {
      assert ClosePage in t.calls + [Sleep(2)] ==> ClosePage in t.calls;
      assert CloseContext in t.calls + [Sleep(2)] ==> CloseContext in t.calls;
      assert StopPlaywright in t.calls + [Sleep(2)] ==> StopPlaywright in t.calls;
    }
  }

  /** The close order is page, then context, then driver; a failure stops the later closes. */
  lemma CloseOrder(h: Handles, io: Closer)
    requires h.page.Some? && h.context.Some? && h.playwright.Some?
    ensures io.closePage.Raise? ==> Close(h, io).calls == [ClosePage]
    ensures io.closePage.Ok? && io.closeContext.Raise? ==> Close(h, io).calls == [ClosePage, CloseContext]
    ensures io.closePage.Ok? && io.closeContext.Ok? ==>
              Close(h, io).calls == [ClosePage, CloseContext, StopPlaywright] + (if io.stopPlaywright.Ok? then [Sleep(2)] else [])
  {
    PlanUnfolds(h, io);
  }

  /** Closing a bot that holds no handles calls nothing and only waits. */
  lemma CloseWithoutHandles(io: Closer)
    ensures Close(NoHandles, io) == CloseRun(true, CloseSuccessMessage, NoHandles, [Sleep(2)])
  {
    PlanUnfolds(NoHandles, io);
  }

  /** After a successful close a second close is the trivial one. */
  lemma CloseTwice(h: Handles, io: Closer, io2: Closer)
    requires Close(h, io).ok
    ensures Close(Close(h, io).state, io2) == CloseRun(true, CloseSuccessMessage, NoHandles, [Sleep(2)])
  {
    CloseOutcome(h, io);
    CloseWithoutHandles(io2);
  }

  // ---------------------------------------------------------------------------
  // Specification of reset_session
  // ---------------------------------------------------------------------------

  datatype ResetRun = ResetRun(ok: bool, message: string, state: Handles, calls: seq<Call>)

  /** The bot closes (whatever the result), waits, then deletes the session directory if it exists. */
  function Reset(h: Handles, io: Closer, sessionDirExists: bool, removeTree: Step): ResetRun {
    var closed := Close(h, io);
    var waited := closed.calls + [Sleep(2)];
    if !sessionDirExists then ResetRun(true, NoSessionMessage, closed.state, waited)
    else match removeTree
      case Ok => ResetRun(true, ResetDoneMessage, closed.state, waited + [RemoveSessionDir])
      case Raise(e) => ResetRun(false, ResetErrorPrefix + e, closed.state, waited + [RemoveSessionDir])
  }

  /** A failed close does not fail the reset: only the directory removal can. */
  lemma ResetIgnoresCloseFailure(h: Handles, io: Closer, sessionDirExists: bool, removeTree: Step)
    ensures var r := Reset(h, io, sessionDirExists, removeTree);
            && (r.ok <==> !sessionDirExists || removeTree.Ok?)
            && (RemoveSessionDir in r.calls <==> sessionDirExists)
            && r.state == Close(h, io).state
  {
    var closed := Close(h, io);
    var waited := closed.calls + [Sleep(2)];
    CloseOutcome(h, io);
    if !sessionDirExists {
      assert RemoveSessionDir !in closed.calls by {
        CloseCallsAreCloses(h, io);
      }
      assert RemoveSessionDir !in waited;
    }
  }

  lemma CloseCallsAreCloses(h: Handles, io: Closer)
    ensures forall c :: c in Close(h, io).calls ==> c == ClosePage || c == CloseContext || c == StopPlaywright || c == Sleep(2)
  {
    var plan := ReleasePlan(h, io);
    assert forall s :: s in plan ==> s.call == ClosePage || s.call == CloseContext || s.call == StopPlaywright;
  }

  // ---------------------------------------------------------------------------
  // Specification of launch_browser
  // ---------------------------------------------------------------------------

  /** The return value (`success`, `message`, `page`), the new fields, the cleanup's effects and the library calls. */
  datatype LaunchRun = LaunchRun(
    ok: bool, message: string, page: Option<Handle>, state: Handles,
    cleanup: seq<ProfileLock.Effect>, calls: seq<Call>)

  /** The outer exception handler: stop the driver if one was started, report the first 200 characters. */
  function Abort(s: Handles, cleanup: seq<ProfileLock.Effect>, calls: seq<Call>, error: string): LaunchRun {
    LaunchRun(false, UnexpectedError(error), None, s, cleanup,
              if s.playwright.Some? then calls + [StopPlaywright] else calls)
  }

  /** Open WhatsApp Web on the chosen page, then wait three seconds. */
  function Navigate(s: Handles, cleanup: seq<ProfileLock.Effect>, calls: seq<Call>, eng: Engine): LaunchRun {
    var visited := calls + [GotoHome];
    match eng.gotoHome
    case Raise(e) => Abort(s, cleanup, visited, e)
    case Ok => LaunchRun(true, LaunchSuccessMessage, s.page, s, cleanup, visited + [Sleep(3)])
  }

  function Launch(h: Handles, fs: ProfileLock.FileSystem, eng: Engine): LaunchRun {
    var cleaned := ProfileLock.Cleanup(fs);
    if !cleaned.result.Done? then
      LaunchRun(false, ProfileLock.Message(cleaned.result), None, h, cleaned.effects, [])
    else Start(cleaned.effects, eng)
  }

  /** The launch once the stale locks are gone: start from no handles and drive the engine. */
  function Start(eff: seq<ProfileLock.Effect>, eng: Engine): LaunchRun {
      match eng.makeDirs
      case Raise(e) => Abort(NoHandles, eff, [MakeSessionDir], e)
      case Ok =>
        var started := [MakeSessionDir, StartPlaywright];
        match eng.start
        case NotImplemented => LaunchRun(false, Python313Message, None, NoHandles, eff, started)
        case StartFailed(e) => Abort(NoHandles, eff, started, e)
        case Started(p) =>
          var driven := Handles(Some(p), None, None);
          var launched := started + [LaunchContext];
          match eng.launch
          case LaunchRefused(e) => LaunchRun(false, ClassifyLaunchError(e), None, driven, eff, launched)
          case LaunchFailed(e) => Abort(driven, eff, launched, e)
          case Opened(ctx, pages) =>
            if |pages| > 0 then Navigate(Handles(Some(p), Some(ctx), Some(pages[0])), eff, launched, eng)
            else
              var requested := launched + [NewPage];
              match eng.newPage
              case CallFailed(e) => Abort(Handles(Some(p), Some(ctx), None), eff, requested, e)
              case Returned(pg) => Navigate(Handles(Some(p), Some(ctx), Some(pg)), eff, requested, eng)
  }

  /**
   * The launch succeeds exactly when the cleanup succeeds and every library
   * call returns, and then all three fields are set and the page returned is
   * the context's first page or else a new one.
   */
  lemma LaunchSucceeds(h: Handles, fs: ProfileLock.FileSystem, eng: Engine)
    ensures var r := Launch(h, fs, eng);
            && (r.ok <==> && ProfileLock.Cleanup(fs).result.Done?
                          && eng.makeDirs.Ok? && eng.start.Started? && eng.launch.Opened?
                          && (|eng.launch.pages| > 0 || eng.newPage.Returned?)
                          && eng.gotoHome.Ok?)
            && (r.ok ==> && r.message == LaunchSuccessMessage
                         && r.state == Handles(Some(eng.start.driver), Some(eng.launch.context), r.page)
                         && r.page == Some(if |eng.launch.pages| > 0 then eng.launch.pages[0] else eng.newPage.handle))
            && (!r.ok ==> r.page.None?)
  {
  }

  /** A failed cleanup stops the launch before any library call and leaves the fields as they were. */
  lemma CleanupGatesLaunch(h: Handles, fs: ProfileLock.FileSystem, eng: Engine)
    requires !ProfileLock.Cleanup(fs).result.Done?
    ensures Launch(h, fs, eng).calls == [] && Launch(h, fs, eng).state == h
    ensures !Launch(h, fs, eng).ok && Launch(h, fs, eng).message == ProfileLock.Message(ProfileLock.Cleanup(fs).result)
  {
  }

  /**
   * The driver is stopped only by the outer handler, and only once it has
   * been started; a `PlaywrightError` from the launch keeps the driver and
   * reports the classified message.
   */
  lemma LaunchStopsDriverOnlyOnUnexpectedError(h: Handles, fs: ProfileLock.FileSystem, eng: Engine)
    ensures var r := Launch(h, fs, eng);
            && (StopPlaywright in r.calls ==> eng.start.Started? && !r.ok && StartsWith(r.message, UnexpectedErrorPrefix))
            && (ProfileLock.Cleanup(fs).result.Done? && eng.makeDirs.Ok? && eng.start.Started? && eng.launch.LaunchRefused? ==>
                  && StopPlaywright !in r.calls
                  && r.state == Handles(Some(eng.start.driver), None, None)
                  && r.message == ClassifyLaunchError(eng.launch.reason))
  {
    var r := Launch(h, fs, eng);
    if ProfileLock.Cleanup(fs).result.Done? && eng.makeDirs.Ok? && eng.start.Started? && eng.launch.Opened? {
      var started := [MakeSessionDir, StartPlaywright, LaunchContext];
      if (|eng.launch.pages| == 0 && eng.newPage.Returned?) || |eng.launch.pages| > 0 {
        assert StopPlaywright !in started + [NewPage] + [GotoHome] + [Sleep(3)];
        assert StopPlaywright !in started + [GotoHome] + [Sleep(3)];
      }
    }
  }

  // ---------------------------------------------------------------------------
  // The bot
  // ---------------------------------------------------------------------------

  class WhatsAppBot {
    var playwright: Option<Handle>
    var context: Option<Handle>
    var page: Option<Handle>

    function State(): Handles
      reads this
    {
      Handles(playwright, context, page)
    }

    constructor()
      ensures State() == NoHandles
    {
      playwright, context, page := None, None, None;
    }

    /** Close page, context and driver in that order, then forget all three. */
    method CloseBrowser(io: Closer) returns (ok: bool, message: string, calls: seq<Call>)
      modifies this
      ensures CloseRun(ok, message, State(), calls) == Close(old(State()), io)
    {
      PlanUnfolds(State(), io);
      calls := [];
      if page.Some? {
        calls := calls + [ClosePage];
        if io.closePage.Raise? {
          return false, CloseErrorPrefix + io.closePage.reason, calls;
        }
      }
      if context.Some? {
        calls := calls + [CloseContext];
        if io.closeContext.Raise? {
          return false, CloseErrorPrefix + io.closeContext.reason, calls;
        }
      }
      if playwright.Some? {
        calls := calls + [StopPlaywright];
        if io.stopPlaywright.Raise? {
          return false, CloseErrorPrefix + io.stopPlaywright.reason, calls;
        }
      }
      page, context, playwright := None, None, None;
      calls := calls + [Sleep(2)];
      return true, CloseSuccessMessage, calls;
    }

    /** Close the browser, ignoring a failure, wait, and delete the session directory if there is one. */
    method ResetSession(io: Closer, sessionDirExists: bool, removeTree: Step)
      returns (ok: bool, message: string, calls: seq<Call>)
      modifies this
      ensures ResetRun(ok, message, State(), calls) == Reset(old(State()), io, sessionDirExists, removeTree)
    {
      var closed, closeMessage;
      closed, closeMessage, calls := CloseBrowser(io);
      calls := calls + [Sleep(2)];
      if sessionDirExists {
        calls := calls + [RemoveSessionDir];
        if removeTree.Raise? {
          return false, ResetErrorPrefix + removeTree.reason, calls;
        }
        return true, ResetDoneMessage, calls;
      }
      return true, NoSessionMessage, calls;
    }

    /** The outer exception handler of `launch_browser`. */
    method AbortLaunch(cleanup: seq<ProfileLock.Effect>, callsSoFar: seq<Call>, error: string)
      returns (ok: bool, message: string, active: Option<Handle>, calls: seq<Call>)
      ensures LaunchRun(ok, message, active, State(), cleanup, calls) == Abort(State(), cleanup, callsSoFar, error)
    {
      calls := callsSoFar;
      if playwright.Some? {
        calls := calls + [StopPlaywright];
      }
      return false, UnexpectedError(error), None, calls;
    }

    /** Open the page on WhatsApp Web. */
    method NavigateHome(eng: Engine, cleanup: seq<ProfileLock.Effect>, callsSoFar: seq<Call>)
      returns (ok: bool, message: string, active: Option<Handle>, calls: seq<Call>)
      ensures LaunchRun(ok, message, active, State(), cleanup, calls) == Navigate(State(), cleanup, callsSoFar, eng)
    {
      calls := callsSoFar + [GotoHome];
      if eng.gotoHome.Raise? {
        ok, message, active, calls := AbortLaunch(cleanup, calls, eng.gotoHome.reason);
        return;
      }
      calls := calls + [Sleep(3)];
      return true, LaunchSuccessMessage, page, calls;
    }

    /**
     * Clean the profile lock, reset the fields, create the session
     * directory, start the driver, open the persistent context and take or
     * create its page, then open WhatsApp Web.
     */
    method LaunchBrowser(fs: ProfileLock.FileSystem, eng: Engine)
      returns (ok: bool, message: string, active: Option<Handle>,
               cleanup: seq<ProfileLock.Effect>, calls: seq<Call>)
      modifies this
      ensures LaunchRun(ok, message, active, State(), cleanup, calls) == Launch(old(State()), fs, eng)
    {
      var cleaned;
      cleaned, cleanup := ProfileLock.ForceBrowserCleanup(fs);
      if !cleaned.Done? {
        return false, ProfileLock.Message(cleaned), None, cleanup, [];
      }
      ok, message, active, calls := StartEngine(cleanup, eng);
    }

    /** The launch after the cleanup succeeded. */
    method StartEngine(cleanup: seq<ProfileLock.Effect>, eng: Engine)
      returns (ok: bool, message: string, active: Option<Handle>, calls: seq<Call>)
      modifies this
      ensures LaunchRun(ok, message, active, State(), cleanup, calls) == Start(cleanup, eng)
    {
      page, context, playwright := None, None, None;
      calls := [MakeSessionDir];
      if eng.makeDirs.Raise? {
        ok, message, active, calls := AbortLaunch(cleanup, calls, eng.makeDirs.reason);
        return;
      }
      calls := calls + [StartPlaywright];
      match eng.start {
        case NotImplemented =>
          return false, Python313Message, None, calls;
        case StartFailed(e) =>
          ok, message, active, calls := AbortLaunch(cleanup, calls, e);
          return;
        case Started(p) =>
          playwright := Some(p);
      }
      calls := calls + [LaunchContext];
      match eng.launch {
        case LaunchRefused(e) =>
          return false, ClassifyLaunchError(e), None, calls;
        case LaunchFailed(e) =>
          ok, message, active, calls := AbortLaunch(cleanup, calls, e);
          return;
        case Opened(ctx, pages) =>
          context := Some(ctx);
          if |pages| > 0 {
            page := Some(pages[0]);
          } else {
            calls := calls + [NewPage];
            if eng.newPage.CallFailed? {
              ok, message, active, calls := AbortLaunch(cleanup, calls, eng.newPage.reason);
              return;
            }
            page := Some(eng.newPage.handle);
          }
      }
      ok, message, active, calls := NavigateHome(eng, cleanup, calls);
    }
  }
}
