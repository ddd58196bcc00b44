/**
 * `WhatsAppBot.send_message` with `_check_invalid_number` and
 * `_dismiss_popup`: the per-recipient delivery procedure.
 *
 * The page is an oracle. `Web.probe(c, s)` answers what the locator for
 * selector `s` reports at checkpoint `c` of the procedure (each place in
 * the code where the page is inspected is one checkpoint, so every probe
 * made there sees the same page); `Web.act(n, a)` says how the `n`-th page
 * action `a` ends. Selectors stay opaque strings in the engine's order.
 * The procedure's observable behaviour is its outcome string, the page
 * actions it performed, and how many search rounds it ran.
 */
module Delivery {
  import opened Wrappers
  import opened Text
  import Columns

  // ---------------------------------------------------------------------------
  // The page oracle
  // ---------------------------------------------------------------------------

  /** What a locator reports: no match, a match with its first element's visibility, or an exception from `count()` or `is_visible()`. */
  datatype Probe = Absent | Present(visible: bool) | CountRaises | VisibilityRaises

  /** `loc.count() > 0 and loc.first.is_visible()` is true. */
  predicate Shown(p: Probe) {
    p == Present(true)
  }

  /** `loc.count() > 0` is true. */
  predicate Counted(p: Probe) {
    p.Present? || p.VisibilityRaises?
  }

  /** How a page action ends: normally, with Playwright's `TimeoutError`, or with another exception. */
  datatype Reply = Completed | TimedOut | Raised(reason: string)

  datatype Checkpoint =
    | FirstCheck            // the invalid-number check right after loading the chat
    | RoundCheck(attempt: nat)     // the invalid-number re-check in composer round `attempt`
    | ComposerRound(attempt: nat)  // the composer search of round `attempt`
    | FinalCheck            // the last invalid-number check before the urgent fallback
    | UrgentSearch          // the composer re-search after clicking the footer
    | AfterReload           // the invalid-number check after the URL fallback
    | FallbackSearch        // the composer search after the URL fallback
    | SendRound(round: nat) // the send-button search of round `round`
    | AfterSend             // the invalid-number check after sending
    | Ticks                 // the delivery-tick search

  /** The chat link, and the chat link that pre-fills the message. */
  datatype Url = ChatLink(phone: string) | ChatLinkWithText(phone: string, text: string)

  datatype Action =
    | Goto(url: Url)
    | WaitForChat
    | Dismiss(selector: string)
    | ClickFooter
    | ClickComposer
    | ClickSend
    | Press(key: string)
    | TypeLine(line: string)

  datatype Web = Web(probe: (Checkpoint, string) -> Probe, act: (nat, Action) -> Reply)

  datatype Outcome =
    | Sent | SentPending | InvalidNumber | NotOnWhatsApp | NoChatLoaded | NoBrowser
    | TimedOutFailure | Failed(reason: string)

  /** The status string `send_message` returns. */
  function Label(o: Outcome): string {
    match o
    case Sent => "Sent ✅"
    case SentPending => "Sent (Pending) ⏳"
    case InvalidNumber => "Failed (Invalid Number)"
    case NotOnWhatsApp => "Failed (Not on WhatsApp)"
    case NoChatLoaded => "Failed (No chat loaded)"
    case NoBrowser => "Failed (No browser)"
    case TimedOutFailure => "Failed (Timeout)"
    case Failed(e) => "Failed (" + Take(e, 50) + ")"
  }

  const ShiftEnter := "Shift+Enter"
  const Enter := "Enter"
  const SelectAll := "Control+A"
  const Backspace := "Backspace"

  const ComposerAttempts := 3
  const SendAttempts := 5

  const InvalidSelectors: seq<string> := [
    "div[data-testid='invalid-number']",
    "text=Phone number shared via url is invalid",
    "text=The phone number is invalid",
    "text=isn't on WhatsApp",
    "text=not on WhatsApp",
    "text=number is not registered"]

  const DismissSelectors: seq<string> := [
    "div[role=\"button\"]:has-text(\"OK\")",
    "button:has-text(\"OK\")",
    "div[data-testid=\"popup-controls-ok\"]",
    "div[role=\"dialog\"] div[role=\"button\"]"]

  const InputSelectors: seq<string> := [
    "div[contenteditable=\"true\"][data-tab=\"10\"]",
    "div[aria-label=\"Type a message\"]",
    "div[title=\"Type a message\"]",
    "div.lexical-rich-text-input div[contenteditable=\"true\"]",
    "#main footer div[contenteditable=\"true\"]"]

  const SendSelectors: seq<string> := [
    "span[data-icon=\"send\"]",
    "button[aria-label=\"Send\"]",
    "button[data-testid=\"send\"]",
    "div[data-testid=\"send\"]",
    "#main footer button span[data-icon=\"send\"]",
    "footer button"]

  /** Delivery ticks, looked for only inside the open conversation (`#main`). */
  const TickSelectors: seq<string> := [
    "#main span[data-icon=\"msg-check\"]",
    "#main span[data-icon=\"msg-dblcheck\"]",
    "#main span[data-icon=\"msg-dblcheck-ack\"]"]

  function ShownAt(w: Web, c: Checkpoint): string -> bool {
    s => Shown(w.probe(c, s))
  }

  function CountedAt(w: Web, c: Checkpoint): string -> bool {
    s => Counted(w.probe(c, s))
  }

  // ---------------------------------------------------------------------------
  // Specification, phase by phase
  // ---------------------------------------------------------------------------

  /** The procedure so far: still going, or finished with an outcome; with the actions performed. */
  datatype Flow = Go(effects: seq<Action>) | Halt(outcome: Outcome, effects: seq<Action>)

  /** The status an exception reaching the outer handlers gives. */
  function Failure(r: Reply): Outcome
    requires !r.Completed?
  {
    if r.TimedOut? then TimedOutFailure else Failed(r.reason)
  }

  /** Perform one page action whose exception ends the procedure. */
  function Perform(w: Web, es: seq<Action>, a: Action): (f: Flow)
    ensures f.effects == es + [a]
  {
    var r := w.act(|es|, a);
    if r.Completed? then Go(es + [a]) else Halt(Failure(r), es + [a])
  }

  /** `_dismiss_popup` from selector `i` on: click the first shown OK button; a failed click moves on to the next selector. */
  function DismissFrom(w: Web, c: Checkpoint, es: seq<Action>, i: nat): (r: seq<Action>)
    requires i <= |DismissSelectors|
    ensures |es| <= |r| && r[..|es|] == es
    ensures forall k :: |es| <= k < |r| ==> r[k].Dismiss?
    decreases |DismissSelectors| - i
  {
    if i == |DismissSelectors| then es
    else
      var sel := DismissSelectors[i];
      if !Shown(w.probe(c, sel)) then DismissFrom(w, c, es, i + 1)
      else if w.act(|es|, Dismiss(sel)).Completed? then es + [Dismiss(sel)]
      else
        var r := DismissFrom(w, c, es + [Dismiss(sel)], i + 1);
        assert (es + [Dismiss(sel)])[..|es|] == es;
        r
  }

  datatype Check = Check(invalid: bool, effects: seq<Action>)

  /** `_check_invalid_number` at checkpoint `c`: an invalid-number indicator is shown; if so the popup is dismissed. */
  function CheckInvalid(w: Web, c: Checkpoint, es: seq<Action>): (r: Check)
    ensures r.invalid <==> exists i :: 0 <= i < |InvalidSelectors| && Shown(w.probe(c, InvalidSelectors[i]))
    ensures !r.invalid ==> r.effects == es
    ensures |es| <= |r.effects| && r.effects[..|es|] == es
    ensures forall k :: |es| <= k < |r.effects| ==> r.effects[k].Dismiss?
  {
    var found := Columns.FirstWhere(InvalidSelectors, ShownAt(w, c));
    if found.Some? then
      assert ShownAt(w, c)(InvalidSelectors[found.value]);
      Check(true, DismissFrom(w, c, es, 0))
    else
      assert forall i :: 0 <= i < |InvalidSelectors| ==> !ShownAt(w, c)(InvalidSelectors[i]);
      Check(false, es)
  }

  /** The composer search: whether it found a visible input (and which selector), hit an invalid number, and how many rounds it ran. */
  datatype Search = Search(found: Option<nat>, invalid: bool, effects: seq<Action>, rounds: nat)

  /** Rounds `attempt` .. 2 of the composer search, each starting with an invalid-number re-check. */
  function ComposerFrom(w: Web, es: seq<Action>, attempt: nat): (r: Search)
    requires attempt <= ComposerAttempts
    ensures attempt <= r.rounds <= ComposerAttempts
    ensures r.found.Some? ==> !r.invalid && r.found.value < |InputSelectors| && r.rounds > 0
    ensures r.found.None? && !r.invalid ==> r.rounds == ComposerAttempts
    ensures |es| <= |r.effects| && r.effects[..|es|] == es
    ensures forall k :: |es| <= k < |r.effects| ==> r.effects[k].Dismiss?
    decreases ComposerAttempts - attempt
  {
    if attempt == ComposerAttempts then Search(None, false, es, attempt)
    else
      var check := CheckInvalid(w, RoundCheck(attempt), es);
      if check.invalid then Search(None, true, check.effects, attempt + 1)
      else match Columns.FirstWhere(InputSelectors, ShownAt(w, ComposerRound(attempt)))
        case Some(i) =>
          Search(Some(i), false, check.effects, attempt + 1)
        case None => ComposerFrom(w, check.effects, attempt + 1)
  }

  /**
   * The composer re-search of the urgent fallback from selector `i` on: it
   * checks `count() > 0` only, and an exception ends the whole search.
   */
  function UrgentFrom(w: Web, i: nat): (r: Option<nat>)
    requires i <= |InputSelectors|
    ensures r.Some? ==> i <= r.value < |InputSelectors| && Counted(w.probe(UrgentSearch, InputSelectors[r.value]))
    decreases |InputSelectors| - i
  {
    if i == |InputSelectors| then None
    else match w.probe(UrgentSearch, InputSelectors[i])
      case Absent => UrgentFrom(w, i + 1)
      case CountRaises => None
      case Present(_) => Some(i)
      case VisibilityRaises => Some(i)
  }

  /** The negation of the `line.strip() != ""` test: every character is whitespace (see `BlankIffStripsEmpty`). */
  predicate IsBlank(line: string) {
    forall k :: 0 <= k < |line| ==> IsSpace(line[k])
  }

  /** `IsBlank` is exactly "stripping leaves nothing". */
  lemma BlankIffStripsEmpty(line: string)
    ensures IsBlank(line) <==> Strip(line) == ""
  {
    var r := Strip(line);
    var k :| StrippedAt(line, r, k);
  }

  /** Typing lines `i..`: non-blank lines are typed, and `Shift+Enter` separates consecutive lines. */
  function TypeFrom(w: Web, es: seq<Action>, lines: seq<string>, i: nat): Flow
    requires i <= |lines|
    decreases |lines| - i
  {
    if i == |lines| then Go(es)
    else
      var typed := if !IsBlank(lines[i]) then Perform(w, es, TypeLine(lines[i])) else Go(es);
      if typed.Halt? then typed
      else
        var separated := if i < |lines| - 1 then Perform(w, typed.effects, Press(ShiftEnter)) else typed;
        if separated.Halt? then separated
        else TypeFrom(w, separated.effects, lines, i + 1)
  }

  /** Click the found composer and type the message lines into it. */
  function TypeInto(w: Web, es: seq<Action>, lines: seq<string>): Flow {
    var click := Perform(w, es, ClickComposer);
    if click.Halt? then click else TypeFrom(w, click.effects, lines, 0)
  }

  /** Click the fallback composer, select and delete any pre-filled text, and type the message lines. */
  function ClearAndType(w: Web, es: seq<Action>, lines: seq<string>): Flow {
    var click := Perform(w, es, ClickComposer);
    if click.Halt? then click
    else
      var selected := Perform(w, click.effects, Press(SelectAll));
      if selected.Halt? then selected
      else
        var cleared := Perform(w, selected.effects, Press(Backspace));
        if cleared.Halt? then cleared
        else TypeFrom(w, cleared.effects, lines, 0)
  }

  /** The URL fallback: reload with the message pre-filled, re-check, find the composer, clear it and type. */
  function Fallback(w: Web, phone: string, message: string, es: seq<Action>): Flow {
    var reload := Perform(w, es, Goto(ChatLinkWithText(phone, message)));
    if reload.Halt? then reload
    else
      var check := CheckInvalid(w, AfterReload, reload.effects);
      if check.invalid then Halt(InvalidNumber, check.effects)
      else if Columns.FirstWhere(InputSelectors, ShownAt(w, FallbackSearch)).None? then Halt(NoChatLoaded, check.effects)
      else ClearAndType(w, check.effects, Split(message, '\n'))
  }

  /** The typing phase's result, the composer rounds it ran, and whether `input_box` was set. */
  datatype Composed = Composed(flow: Flow, rounds: nat, box: bool)

  /**
   * When the rounds found no composer: a last invalid-number check, the
   * urgent click on the footer and re-search, and else the URL fallback.
   */
  function Rescue(w: Web, phone: string, message: string, es: seq<Action>, rounds: nat): Composed {
    var last := CheckInvalid(w, FinalCheck, es);
    if last.invalid then Composed(Halt(InvalidNumber, last.effects), rounds, false)
    else
      var clicked := last.effects + [ClickFooter];
      var urgent := if w.act(|last.effects|, ClickFooter).Completed? then UrgentFrom(w, 0) else None;
      if urgent.Some? then Composed(TypeInto(w, clicked, Split(message, '\n')), rounds, true)
      else Composed(Fallback(w, phone, message, clicked), rounds, false)
  }

  /** From the first invalid-number check to the end of typing. */
  function Compose(w: Web, phone: string, message: string, es: seq<Action>): (r: Composed)
    ensures r.rounds <= ComposerAttempts
  {
    var first := CheckInvalid(w, FirstCheck, es);
    if first.invalid then Composed(Halt(InvalidNumber, first.effects), 0, false)
    else
      var search := ComposerFrom(w, first.effects, 0);
      if search.invalid then Composed(Halt(InvalidNumber, search.effects), search.rounds, false)
      else if search.found.Some? then Composed(TypeInto(w, search.effects, Split(message, '\n')), search.rounds, true)
      else Rescue(w, phone, message, search.effects, search.rounds)
  }

  datatype SendSearch = SendSearch(found: Option<nat>, rounds: nat)

  /** Rounds `round` .. 4 of the send-button search. */
  function SendFrom(w: Web, round: nat): (r: SendSearch)
    requires round <= SendAttempts
    ensures round <= r.rounds <= SendAttempts
    ensures r.found.Some? ==> r.found.value < |SendSelectors| && r.rounds > 0
                              && Shown(w.probe(SendRound(r.rounds - 1), SendSelectors[r.found.value]))
    ensures r.found.None? ==> r.rounds == SendAttempts
    decreases SendAttempts - round
  {
    if round == SendAttempts then SendSearch(None, round)
    else match Columns.FirstWhere(SendSelectors, ShownAt(w, SendRound(round)))
      case Some(i) =>
        assert ShownAt(w, SendRound(round))(SendSelectors[i]);
        SendSearch(Some(i), round + 1)
      case None => SendFrom(w, round + 1)
  }

  /** What sends the message: the button, or else Enter (after re-focusing the composer when there is one). */
  function SendKeys(found: bool, box: bool): seq<Action> {
    if found then [ClickSend] else (if box then [ClickComposer] else []) + [Press(Enter)]
  }

  datatype Dispatched = Dispatched(flow: Flow, rounds: nat)

  /** Press what sends the message: the found button, or else Enter after re-focusing the composer when there is one. */
  function PressSend(w: Web, es: seq<Action>, found: bool, box: bool): Flow {
    if found then Perform(w, es, ClickSend)
    else
      var focus := if box then Perform(w, es, ClickComposer) else Go(es);
      if focus.Halt? then focus else Perform(w, focus.effects, Press(Enter))
  }

  /** From the send-button search to the final status. */
  function Dispatch(w: Web, es: seq<Action>, box: bool): (r: Dispatched)
    ensures r.flow.Halt? && r.rounds <= SendAttempts
  {
    var search := SendFrom(w, 0);
    var pressed := PressSend(w, es, search.found.Some?, box);
    if pressed.Halt? then Dispatched(pressed, search.rounds)
    else
      var check := CheckInvalid(w, AfterSend, pressed.effects);
      if check.invalid then Dispatched(Halt(NotOnWhatsApp, check.effects), search.rounds)
      else
        var ticked := Columns.FirstWhere(TickSelectors, CountedAt(w, Ticks)).Some?;
        Dispatched(Halt(if ticked then Sent else SentPending, check.effects), search.rounds)
  }

  /** The status, the page actions and the rounds of both searches. */
  datatype Delivery = Delivery(outcome: Outcome, effects: seq<Action>, composerRounds: nat, sendRounds: nat)

  /** `send_message(phone, message)` as a value; `page` is `None` when the bot has no page. */
  function Deliver(page: Option<Web>, phone: string, message: string): Delivery {
    if page.None? then Delivery(NoBrowser, [], 0, 0)
    else
      var w := page.value;
      var open := Perform(w, [], Goto(ChatLink(phone)));
      if open.Halt? then Delivery(open.outcome, open.effects, 0, 0)
      else Finish(w, Compose(w, phone, message, open.effects + [WaitForChat]))
  }

  /** After the typing phase: stop with its status, or press send and classify the result. */
  function Finish(w: Web, composed: Composed): Delivery {
    if composed.flow.Halt? then Delivery(composed.flow.outcome, composed.flow.effects, composed.rounds, 0)
    else
      var sent := Dispatch(w, composed.flow.effects, composed.box);
      Delivery(sent.flow.outcome, sent.flow.effects, composed.rounds, sent.rounds)
  }

  // ---------------------------------------------------------------------------
  // The procedure
  // ---------------------------------------------------------------------------

  /** Index of the first selector shown at checkpoint `c`. */
  method FindShown(w: Web, c: Checkpoint, selectors: seq<string>) returns (r: Option<nat>)
    ensures r == Columns.FirstWhere(selectors, ShownAt(w, c))
  {
    for i := 0 to |selectors|
      invariant forall j :: 0 <= j < i ==> !ShownAt(w, c)(selectors[j])
    {
      if Shown(w.probe(c, selectors[i])) {
        assert ShownAt(w, c)(selectors[i]);
        Columns.FirstWhereIs(selectors, ShownAt(w, c), Some(i));
        return Some(i);
      }
    }
    Columns.FirstWhereIs(selectors, ShownAt(w, c), None);
    return None;
  }

  method DismissPopup(w: Web, c: Checkpoint, es: seq<Action>) returns (out: seq<Action>)
    ensures out == DismissFrom(w, c, es, 0)
  {
    out := es;
    for i := 0 to |DismissSelectors|
      invariant DismissFrom(w, c, es, 0) == DismissFrom(w, c, out, i)
    {
      var sel := DismissSelectors[i];
      if Shown(w.probe(c, sel)) {
        var reply := w.act(|out|, Dismiss(sel));
        out := out + [Dismiss(sel)];
        if reply.Completed? {
          return out;
        }
      }
    }
  }

  method CheckInvalidNumber(w: Web, c: Checkpoint, es: seq<Action>) returns (invalid: bool, out: seq<Action>)
    ensures Check(invalid, out) == CheckInvalid(w, c, es)
  {
    var found := FindShown(w, c, InvalidSelectors);
    if found.Some? {
      out := DismissPopup(w, c, es);
      return true, out;
    }
    return false, es;
  }

  lemma ComposerFromStep(w: Web, es: seq<Action>, attempt: nat)
    requires attempt < ComposerAttempts
    requires !CheckInvalid(w, RoundCheck(attempt), es).invalid
    ensures var out := CheckInvalid(w, RoundCheck(attempt), es).effects;
            var found := Columns.FirstWhere(InputSelectors, ShownAt(w, ComposerRound(attempt)));
            ComposerFrom(w, es, attempt) == if found.Some? then Search(found, false, out, attempt + 1) else ComposerFrom(w, out, attempt + 1)
  {
  }

  lemma SendFromStep(w: Web, round: nat)
    requires round < SendAttempts
    ensures var found := Columns.FirstWhere(SendSelectors, ShownAt(w, SendRound(round)));
            SendFrom(w, round) == if found.Some? then SendSearch(found, round + 1) else SendFrom(w, round + 1)
  {
  }

  /** Up to three rounds: re-check for the invalid-number popup, then look for a visible composer. */
  method FindComposer(w: Web, es: seq<Action>) returns (found: Option<nat>, invalid: bool, out: seq<Action>, rounds: nat)
    ensures Search(found, invalid, out, rounds) == ComposerFrom(w, es, 0)
  {
    out := es;
    for attempt := 0 to ComposerAttempts
      invariant ComposerFrom(w, es, 0) == ComposerFrom(w, out, attempt)
    {
      ghost var before := out;
      invalid, out := CheckInvalidNumber(w, RoundCheck(attempt), out);
      if invalid {
        return None, true, out, attempt + 1;
      }
      found := FindShown(w, ComposerRound(attempt), InputSelectors);
      ComposerFromStep(w, before, attempt);
      if found.Some? {
        return found, false, out, attempt + 1;
      }
    }
    return None, false, out, ComposerAttempts;
  }

  /** The urgent fallback's re-search: `count() > 0` only, and no handler around a single probe. */
  method UrgentRefind(w: Web) returns (r: Option<nat>)
    ensures r == UrgentFrom(w, 0)
  {
    for i := 0 to |InputSelectors|
      invariant UrgentFrom(w, 0) == UrgentFrom(w, i)
    {
      var p := w.probe(UrgentSearch, InputSelectors[i]);
      if p.CountRaises? {
        return None;
      }
      if Counted(p) {
        return Some(i);
      }
    }
    return None;
  }

  /** Type the lines of `message`, with `Shift+Enter` between lines and blank lines left untyped. */
  method TypeMessage(w: Web, es: seq<Action>, message: string) returns (flow: Flow)
    ensures flow == TypeFrom(w, es, Split(message, '\n'), 0)
  {
    var lines := Split(message, '\n');
    var out := es;
    for i := 0 to |lines|
      invariant TypeFrom(w, es, lines, 0) == TypeFrom(w, out, lines, i)
    {
      if !IsBlank(lines[i]) {
        var typed := Perform(w, out, TypeLine(lines[i]));
        if typed.Halt? {
          return typed;
        }
        out := typed.effects;
      }
      if i < |lines| - 1 {
        var separated := Perform(w, out, Press(ShiftEnter));
        if separated.Halt? {
          return separated;
        }
        out := separated.effects;
      }
    }
    return Go(out);
  }

  /** Up to five rounds looking for a visible send button. */
  method FindSendButton(w: Web) returns (found: Option<nat>, rounds: nat)
    ensures SendSearch(found, rounds) == SendFrom(w, 0)
  {
    for round := 0 to SendAttempts
      invariant SendFrom(w, 0) == SendFrom(w, round)
    {
      found := FindShown(w, SendRound(round), SendSelectors);
      SendFromStep(w, round);
      if found.Some? {
        return found, round + 1;
      }
    }
    return None, SendAttempts;
  }

  method TypeIntoComposer(w: Web, es: seq<Action>, message: string) returns (flow: Flow)
    ensures flow == TypeInto(w, es, Split(message, '\n'))
  {
    flow := Perform(w, es, ClickComposer);
    if flow.Go? {
      flow := TypeMessage(w, flow.effects, message);
    }
  }

  method UrlFallback(w: Web, phone: string, message: string, es: seq<Action>) returns (flow: Flow)
    ensures flow == Fallback(w, phone, message, es)
  {
    flow := Perform(w, es, Goto(ChatLinkWithText(phone, message)));
    if flow.Halt? {
      return;
    }
    var invalid, out := CheckInvalidNumber(w, AfterReload, flow.effects);
    if invalid {
      return Halt(InvalidNumber, out);
    }
    var input := FindShown(w, FallbackSearch, InputSelectors);
    if input.None? {
      return Halt(NoChatLoaded, out);
    }
    flow := Perform(w, out, ClickComposer);
    if flow.Go? {
      flow := Perform(w, flow.effects, Press(SelectAll));
    }
    if flow.Go? {
      flow := Perform(w, flow.effects, Press(Backspace));
    }
    if flow.Go? {
      flow := TypeMessage(w, flow.effects, message);
    }
  }

  method ComposeMessage(w: Web, phone: string, message: string, es: seq<Action>)
    returns (flow: Flow, rounds: nat, box: bool)
    ensures Composed(flow, rounds, box) == Compose(w, phone, message, es)
  {
    var invalid, out := CheckInvalidNumber(w, FirstCheck, es);
    if invalid {
      return Halt(InvalidNumber, out), 0, false;
    }
    var found;
    found, invalid, out, rounds := FindComposer(w, out);
    if invalid {
      return Halt(InvalidNumber, out), rounds, false;
    }
    if found.Some? {
      flow := TypeIntoComposer(w, out, message);
      return flow, rounds, true;
    }
    invalid, out := CheckInvalidNumber(w, FinalCheck, out);
    if invalid {
      return Halt(InvalidNumber, out), rounds, false;
    }
    var reply := w.act(|out|, ClickFooter);
    out := out + [ClickFooter];
    if reply.Completed? {
      found := UrgentRefind(w);
    }
    if found.Some? {
      flow := TypeIntoComposer(w, out, message);
      return flow, rounds, true;
    }
    flow := UrlFallback(w, phone, message, out);
    return flow, rounds, false;
  }

  method DispatchMessage(w: Web, es: seq<Action>, box: bool) returns (flow: Flow, rounds: nat)
    ensures Dispatched(flow, rounds) == Dispatch(w, es, box)
  {
    var button;
    button, rounds := FindSendButton(w);
    if button.Some? {
      flow := Perform(w, es, ClickSend);
    } else {
      flow := Go(es);
      if box {
        flow := Perform(w, es, ClickComposer);
      }
      if flow.Go? {
        flow := Perform(w, flow.effects, Press(Enter));
      }
    }
    if flow.Halt? {
      return;
    }
    var invalid, out := CheckInvalidNumber(w, AfterSend, flow.effects);
    if invalid {
      return Halt(NotOnWhatsApp, out), rounds;
    }
    var tick := TickSeenAt(w);
    return Halt(if tick then Sent else SentPending, out), rounds;
  }

  /** Any tick selector counts at least one element; an exception skips that selector. */
  method TickSeenAt(w: Web) returns (seen: bool)
    ensures seen == Columns.FirstWhere(TickSelectors, CountedAt(w, Ticks)).Some?
  {
    for i := 0 to |TickSelectors|
      invariant forall j :: 0 <= j < i ==> !CountedAt(w, Ticks)(TickSelectors[j])
    {
      if Counted(w.probe(Ticks, TickSelectors[i])) {
        assert CountedAt(w, Ticks)(TickSelectors[i]);
        Columns.FirstWhereIs(TickSelectors, CountedAt(w, Ticks), Some(i));
        return true;
      }
    }
    Columns.FirstWhereIs(TickSelectors, CountedAt(w, Ticks), None);
    return false;
  }

  /** `send_message`: open the chat, find or fall back to a composer, type, send and classify. */
  method SendMessage(page: Option<Web>, phone: string, message: string)
    returns (outcome: Outcome, effects: seq<Action>, composerRounds: nat, sendRounds: nat)
    ensures Delivery(outcome, effects, composerRounds, sendRounds) == Deliver(page, phone, message)
  {
    if page.None? {
      return NoBrowser, [], 0, 0;
    }
    var w := page.value;
    var flow := Perform(w, [], Goto(ChatLink(phone)));
    if flow.Halt? {
      return flow.outcome, flow.effects, 0, 0;
    }
    var box;
    flow, composerRounds, box := ComposeMessage(w, phone, message, flow.effects + [WaitForChat]);
    if flow.Halt? {
      return flow.outcome, flow.effects, composerRounds, 0;
    }
    flow, sendRounds := DispatchMessage(w, flow.effects, box);
    return flow.outcome, flow.effects, composerRounds, sendRounds;
  }

  // ---------------------------------------------------------------------------
  // Properties of typing
  // ---------------------------------------------------------------------------

  /** The keystrokes for lines `i..`: each non-blank line, and `Shift+Enter` after every line but the last. */
  function Keystrokes(lines: seq<string>, i: nat): seq<Action>
    requires i <= |lines|
    decreases |lines| - i
  {
    if i == |lines| then []
    else
      (if !IsBlank(lines[i]) then [TypeLine(lines[i])] else [])
      + (if i < |lines| - 1 then [Press(ShiftEnter)] else [])
      + Keystrokes(lines, i + 1)
  }

  /** The keystrokes that type `message` line by line. */
  function MessageKeys(message: string): seq<Action> {
    Keystrokes(Split(message, '\n'), 0)
  }

  /** How many times `a` occurs in `acts`. */
  function Count(acts: seq<Action>, a: Action): nat {
    if |acts| == 0 then 0 else (if acts[0] == a then 1 else 0) + Count(acts[1..], a)
  }

  /** The lines typed by `acts`, in order. */
  function Typed(acts: seq<Action>): seq<string> {
    if |acts| == 0 then []
    else (if acts[0].TypeLine? then [acts[0].line] else []) + Typed(acts[1..])
  }

  /** The text `acts` leaves in the composer: typed lines, and a line break per `Shift+Enter`. */
  function Rendered(acts: seq<Action>): string {
    if |acts| == 0 then ""
    else
      (match acts[0]
       case TypeLine(l) => l
       case Press(k) => if k == ShiftEnter then "\n" else ""
       case _ => "")
      + Rendered(acts[1..])
  }

  /** `[l for l in lines if l.strip() != ""]`. */
  function NonBlankLines(lines: seq<string>): (r: seq<string>)
    ensures forall l :: l in r <==> l in lines && !IsBlank(l)
  {
    if |lines| == 0 then []
    else (if !IsBlank(lines[0]) then [lines[0]] else []) + NonBlankLines(lines[1..])
  }

  lemma {:induction false} CountAppend(a: seq<Action>, b: seq<Action>, x: Action)
    ensures Count(a + b, x) == Count(a, x) + Count(b, x)
  {
    if |a| == 0 {
      assert a + b == b;
    } else {
      assert (a + b)[1..] == a[1..] + b;
      CountAppend(a[1..], b, x);
    }
  }

  lemma {:induction false} TypedAppend(a: seq<Action>, b: seq<Action>)
    ensures Typed(a + b) == Typed(a) + Typed(b)
  {
    if |a| == 0 {
      assert a + b == b;
    } else {
      assert (a + b)[1..] == a[1..] + b;
      TypedAppend(a[1..], b);
    }
  }

  lemma {:induction false} RenderedAppend(a: seq<Action>, b: seq<Action>)
    ensures Rendered(a + b) == Rendered(a) + Rendered(b)
  {
    if |a| == 0 {
      assert a + b == b;
    } else {
      assert (a + b)[1..] == a[1..] + b;
      RenderedAppend(a[1..], b);
    }
  }

  /** The keystrokes for line `i` alone. */
  function LineKeys(lines: seq<string>, i: nat): seq<Action>
    requires i < |lines|
  {
    (if !IsBlank(lines[i]) then [TypeLine(lines[i])] else [])
    + (if i < |lines| - 1 then [Press(ShiftEnter)] else [])
  }

  lemma KeystrokesUnfold(lines: seq<string>, i: nat)
    requires i < |lines|
    ensures Keystrokes(lines, i) == LineKeys(lines, i) + Keystrokes(lines, i + 1)
  {
  }

  /** Typing line `i` either stops on a timeout or an exception, or goes on from `es` plus that line's keystrokes. */
  lemma TypeFromStep(w: Web, es: seq<Action>, lines: seq<string>, i: nat)
    requires i < |lines|
    ensures var f := TypeFrom(w, es, lines, i);
            (f.Halt? && (f.outcome == TimedOutFailure || f.outcome.Failed?))
            || f == TypeFrom(w, es + LineKeys(lines, i), lines, i + 1)
  {
    var typed := if !IsBlank(lines[i]) then Perform(w, es, TypeLine(lines[i])) else Go(es);
    var t := if !IsBlank(lines[i]) then [TypeLine(lines[i])] else [];
    assert typed.effects == es + t;
    if typed.Go? {
      var separated := if i < |lines| - 1 then Perform(w, typed.effects, Press(ShiftEnter)) else typed;
      assert separated.effects == es + t + (if i < |lines| - 1 then [Press(ShiftEnter)] else []);
      assert es + t + (if i < |lines| - 1 then [Press(ShiftEnter)] else []) == es + LineKeys(lines, i);
    }
  }

  /** Typing that completes performs exactly the keystrokes of the lines. */
  lemma {:induction false} TypeFromCompletes(w: Web, es: seq<Action>, lines: seq<string>, i: nat)
    requires i <= |lines|
    ensures TypeFrom(w, es, lines, i).Go? ==> TypeFrom(w, es, lines, i).effects == es + Keystrokes(lines, i)
    decreases |lines| - i
  {
    if i < |lines| {
      TypeFromStep(w, es, lines, i);
      if TypeFrom(w, es, lines, i).Go? {
        TypeFromCompletes(w, es + LineKeys(lines, i), lines, i + 1);
        KeystrokesUnfold(lines, i);
        assert es + LineKeys(lines, i) + Keystrokes(lines, i + 1) == es + Keystrokes(lines, i);
      }
    }
  }

  /** Typing that stops, stops on a timeout or an exception. */
  lemma {:induction false} TypeFromFails(w: Web, es: seq<Action>, lines: seq<string>, i: nat)
    requires i <= |lines|
    ensures TypeFrom(w, es, lines, i).Halt? ==>
              TypeFrom(w, es, lines, i).outcome == TimedOutFailure || TypeFrom(w, es, lines, i).outcome.Failed?
    decreases |lines| - i
  {
    if i < |lines| {
      TypeFromStep(w, es, lines, i);
      TypeFromFails(w, es + LineKeys(lines, i), lines, i + 1);
    }
  }

  /** `Shift+Enter` is pressed once between each pair of consecutive lines: `n - 1` times for `n` lines. */
  lemma {:induction false} ShiftEnterBetweenLines(lines: seq<string>, i: nat)
    requires i < |lines|
    ensures Count(Keystrokes(lines, i), Press(ShiftEnter)) == |lines| - 1 - i
    decreases |lines| - i
  {
    KeystrokesUnfold(lines, i);
    CountAppend(LineKeys(lines, i), Keystrokes(lines, i + 1), Press(ShiftEnter));
    var t := if !IsBlank(lines[i]) then [TypeLine(lines[i])] else [];
    var sep := if i < |lines| - 1 then [Press(ShiftEnter)] else [];
    CountAppend(t, sep, Press(ShiftEnter));
    assert Count(t, Press(ShiftEnter)) == 0 by {
      if |t| > 0 {
        assert t[1..] == [];
      }
    }
    if i < |lines| - 1 {
      assert sep[1..] == [];
      ShiftEnterBetweenLines(lines, i + 1);
    }
  }

  /** The lines typed are exactly the non-blank lines, in order. */
  lemma {:induction false} OnlyNonBlankLinesTyped(lines: seq<string>, i: nat)
    requires i <= |lines|
    ensures Typed(Keystrokes(lines, i)) == NonBlankLines(lines[i..])
    decreases |lines| - i
  {
    if i < |lines| {
      KeystrokesUnfold(lines, i);
      TypedAppend(LineKeys(lines, i), Keystrokes(lines, i + 1));
      var t := if !IsBlank(lines[i]) then [TypeLine(lines[i])] else [];
      var sep := if i < |lines| - 1 then [Press(ShiftEnter)] else [];
      TypedAppend(t, sep);
      assert Typed(t) == (if !IsBlank(lines[i]) then [lines[i]] else []) by {
        if |t| > 0 {
          assert t[1..] == [];
        }
      }
      assert Typed(sep) == [] by {
        if |sep| > 0 {
          assert sep[1..] == [];
        }
      }
      OnlyNonBlankLinesTyped(lines, i + 1);
      assert lines[i..][1..] == lines[i + 1..];
    }
  }

  /** Line `i`'s keystrokes leave the line, then a line break unless it is the last line. */
  lemma LineKeysRender(lines: seq<string>, i: nat)
    requires i < |lines|
    requires !IsBlank(lines[i]) || lines[i] == ""
    ensures Rendered(LineKeys(lines, i)) == lines[i] + (if i < |lines| - 1 then "\n" else "")
  {
    var t := if !IsBlank(lines[i]) then [TypeLine(lines[i])] else [];
    var sep := if i < |lines| - 1 then [Press(ShiftEnter)] else [];
    RenderedAppend(t, sep);
    assert Rendered(t) == lines[i] by {
      if |t| > 0 {
        assert t[1..] == [];
      }
    }
    assert Rendered(sep) == (if i < |lines| - 1 then "\n" else "") by {
      if |sep| > 0 {
        assert sep[1..] == [];
      }
    }
  }

  /** With no whitespace-only line, the keystrokes of lines `i..` leave those lines joined by line breaks. */
  lemma {:induction false} KeystrokesRender(lines: seq<string>, i: nat)
    requires i < |lines|
    requires forall k :: i <= k < |lines| ==> !IsBlank(lines[k]) || lines[k] == ""
    ensures Rendered(Keystrokes(lines, i)) == Join(lines[i..], '\n')
    decreases |lines| - i
  {
    KeystrokesUnfold(lines, i);
    RenderedAppend(LineKeys(lines, i), Keystrokes(lines, i + 1));
    LineKeysRender(lines, i);
    if i < |lines| - 1 {
      KeystrokesRender(lines, i + 1);
      assert lines[i..][1..] == lines[i + 1..];
      assert Join(lines[i..], '\n') == lines[i] + "\n" + Join(lines[i + 1..], '\n');
    } else {
      assert lines[i..] == [lines[i]];
    }
  }

  /** Typing a message whose lines are each empty or hold a non-space character reproduces the message exactly. */
  lemma TypedMessageRoundTrip(message: string)
    requires forall l :: l in Split(message, '\n') ==> !IsBlank(l) || l == ""
    ensures Rendered(MessageKeys(message)) == message
  {
    var lines := Split(message, '\n');
    assert forall k :: 0 <= k < |lines| ==> lines[k] in lines;
    KeystrokesRender(lines, 0);
    assert lines[0..] == lines;
    JoinSplit(message, '\n');
  }

  // ---------------------------------------------------------------------------
  // Properties of the outcome
  // ---------------------------------------------------------------------------

  /** An action that sends the message: the send button or the Enter key. */
  predicate Sending(a: Action) {
    a == ClickSend || a == Press(Enter)
  }

  /** An action that puts text into the composer or sends it. */
  predicate Writing(a: Action) {
    a.TypeLine? || a.Press? || a.ClickSend?
  }

  /** No action of `es` is a sending action. */
  predicate Unsent(es: seq<Action>) {
    forall k :: 0 <= k < |es| ==> !Sending(es[k])
  }

  /** No action of `es` writes to the composer or sends. */
  predicate Untouched(es: seq<Action>) {
    forall k :: 0 <= k < |es| ==> !Writing(es[k])
  }

  /** Popup dismissals appended to `es` neither write nor send. */
  lemma DismissalsKeep(es: seq<Action>, r: seq<Action>)
    requires |es| <= |r| && r[..|es|] == es
    requires forall k :: |es| <= k < |r| ==> r[k].Dismiss?
    ensures Untouched(es) ==> Untouched(r)
    ensures Unsent(es) ==> Unsent(r)
  {
    assert forall k :: 0 <= k < |es| ==> r[k] == r[..|es|][k];
  }

  /** Typing keystrokes never press Enter or click send. */
  lemma {:induction false} KeystrokesUnsent(lines: seq<string>, i: nat)
    requires i <= |lines|
    ensures Unsent(Keystrokes(lines, i))
    decreases |lines| - i
  {
    if i < |lines| {
      KeystrokesUnfold(lines, i);
      KeystrokesUnsent(lines, i + 1);
      assert Unsent(LineKeys(lines, i));
    }
  }

  /** Typed into a composer: `es` then the message's keystrokes. */
  lemma TypedAfter(w: Web, es: seq<Action>, lines: seq<string>)
    requires Unsent(es)
    ensures TypeFrom(w, es, lines, 0).Go? ==>
              TypeFrom(w, es, lines, 0).effects == es + Keystrokes(lines, 0) && Unsent(TypeFrom(w, es, lines, 0).effects)
    ensures TypeFrom(w, es, lines, 0).Halt? ==>
              TypeFrom(w, es, lines, 0).outcome == TimedOutFailure || TypeFrom(w, es, lines, 0).outcome.Failed?
  {
    TypeFromCompletes(w, es, lines, 0);
    TypeFromFails(w, es, lines, 0);
    KeystrokesUnsent(lines, 0);
    assert Unsent(es + Keystrokes(lines, 0));
  }

  /** Clearing and typing stops only on a timeout or an exception. */
  lemma ClearAndTypeStops(w: Web, es: seq<Action>, lines: seq<string>)
    ensures var f := ClearAndType(w, es, lines);
            f.Halt? ==> f.outcome == TimedOutFailure || f.outcome.Failed?
  {
    TypeFromFails(w, es + [ClickComposer] + [Press(SelectAll)] + [Press(Backspace)], lines, 0);
  }

  /** Typing into a found composer stops only on a timeout or an exception. */
  lemma TypeIntoStops(w: Web, es: seq<Action>, lines: seq<string>)
    ensures var f := TypeInto(w, es, lines);
            f.Halt? ==> f.outcome == TimedOutFailure || f.outcome.Failed?
  {
    TypeFromFails(w, es + [ClickComposer], lines, 0);
  }

  /** The URL fallback ends in a found-nothing status, a timeout or an exception, or goes on. */
  lemma FallbackStops(w: Web, phone: string, message: string, es: seq<Action>)
    ensures var f := Fallback(w, phone, message, es);
            f.Halt? ==> f.outcome in {InvalidNumber, NoChatLoaded, TimedOutFailure} || f.outcome.Failed?
  {
    var check := CheckInvalid(w, AfterReload, es + [Goto(ChatLinkWithText(phone, message))]);
    ClearAndTypeStops(w, check.effects, Split(message, '\n'));
  }

  /** The typing phase ends in a found-nothing status, a timeout or an exception, or goes on. */
  lemma ComposeStops(w: Web, phone: string, message: string, es: seq<Action>)
    ensures var f := Compose(w, phone, message, es).flow;
            f.Halt? ==> f.outcome in {InvalidNumber, NoChatLoaded, TimedOutFailure} || f.outcome.Failed?
  {
    var first := CheckInvalid(w, FirstCheck, es);
    var search := ComposerFrom(w, first.effects, 0);
    TypeIntoStops(w, search.effects, Split(message, '\n'));
    RescueStops(w, phone, message, search.effects, search.rounds);
  }

  lemma RescueStops(w: Web, phone: string, message: string, es: seq<Action>, rounds: nat)
    ensures var f := Rescue(w, phone, message, es, rounds).flow;
            f.Halt? ==> f.outcome in {InvalidNumber, NoChatLoaded, TimedOutFailure} || f.outcome.Failed?
  {
    var last := CheckInvalid(w, FinalCheck, es);
    TypeIntoStops(w, last.effects + [ClickFooter], Split(message, '\n'));
    FallbackStops(w, phone, message, last.effects + [ClickFooter]);
  }

  /** `es` ends with `tail`. */
  predicate EndsIn(es: seq<Action>, tail: seq<Action>) {
    |tail| <= |es| && es[|es| - |tail|..] == tail
  }

  /** Typing into a found composer that completes leaves the message's keystrokes last, with nothing sent. */
  lemma TypeIntoTyped(w: Web, es: seq<Action>, lines: seq<string>)
    requires Unsent(es)
    ensures var f := TypeInto(w, es, lines);
            f.Go? ==> Unsent(f.effects) && EndsIn(f.effects, Keystrokes(lines, 0))
  {
    var clicked := es + [ClickComposer];
    assert Unsent(clicked);
    TypedAfter(w, clicked, lines);
    assert (clicked + Keystrokes(lines, 0))[|clicked|..] == Keystrokes(lines, 0);
  }

  /** Clearing and typing that completes leaves the message's keystrokes last, with nothing sent. */
  lemma ClearAndTypeTyped(w: Web, es: seq<Action>, lines: seq<string>)
    requires Unsent(es)
    ensures var f := ClearAndType(w, es, lines);
            f.Go? ==> Unsent(f.effects) && EndsIn(f.effects, Keystrokes(lines, 0))
  {
    var cleared := es + [ClickComposer] + [Press(SelectAll)] + [Press(Backspace)];
    assert Unsent(cleared);
    TypedAfter(w, cleared, lines);
    assert (cleared + Keystrokes(lines, 0))[|cleared|..] == Keystrokes(lines, 0);
  }

  lemma FallbackTyped(w: Web, phone: string, message: string, es: seq<Action>)
    requires Unsent(es)
    ensures var f := Fallback(w, phone, message, es);
            f.Go? ==> Unsent(f.effects) && EndsIn(f.effects, MessageKeys(message))
  {
    var reloaded := es + [Goto(ChatLinkWithText(phone, message))];
    assert Unsent(reloaded);
    var check := CheckInvalid(w, AfterReload, reloaded);
    DismissalsKeep(reloaded, check.effects);
    ClearAndTypeTyped(w, check.effects, Split(message, '\n'));
  }

  lemma RescueTyped(w: Web, phone: string, message: string, es: seq<Action>, rounds: nat)
    requires Unsent(es)
    ensures var f := Rescue(w, phone, message, es, rounds).flow;
            f.Go? ==> Unsent(f.effects) && EndsIn(f.effects, MessageKeys(message))
  {
    var last := CheckInvalid(w, FinalCheck, es);
    DismissalsKeep(es, last.effects);
    var clicked := last.effects + [ClickFooter];
    assert Unsent(clicked);
    TypeIntoTyped(w, clicked, Split(message, '\n'));
    FallbackTyped(w, phone, message, clicked);
  }

  /** A typing phase that completes has typed the whole message last, and sent nothing. */
  lemma ComposeTyped(w: Web, phone: string, message: string, es: seq<Action>)
    requires Unsent(es)
    ensures var f := Compose(w, phone, message, es).flow;
            f.Go? ==> Unsent(f.effects) && EndsIn(f.effects, MessageKeys(message))
  {
    var first := CheckInvalid(w, FirstCheck, es);
    DismissalsKeep(es, first.effects);
    var search := ComposerFrom(w, first.effects, 0);
    DismissalsKeep(first.effects, search.effects);
    TypeIntoTyped(w, search.effects, Split(message, '\n'));
    RescueTyped(w, phone, message, search.effects, search.rounds);
  }

  lemma FallbackUntouched(w: Web, phone: string, message: string, es: seq<Action>)
    requires Untouched(es)
    ensures var f := Fallback(w, phone, message, es);
            f.Halt? && f.outcome == InvalidNumber ==> Untouched(f.effects)
  {
    var reloaded := es + [Goto(ChatLinkWithText(phone, message))];
    assert Untouched(reloaded);
    var check := CheckInvalid(w, AfterReload, reloaded);
    DismissalsKeep(reloaded, check.effects);
    ClearAndTypeStops(w, check.effects, Split(message, '\n'));
  }

  lemma RescueUntouched(w: Web, phone: string, message: string, es: seq<Action>, rounds: nat)
    requires Untouched(es)
    ensures var f := Rescue(w, phone, message, es, rounds).flow;
            f.Halt? && f.outcome == InvalidNumber ==> Untouched(f.effects)
  {
    var last := CheckInvalid(w, FinalCheck, es);
    DismissalsKeep(es, last.effects);
    var clicked := last.effects + [ClickFooter];
    assert Untouched(clicked);
    TypeIntoStops(w, clicked, Split(message, '\n'));
    FallbackUntouched(w, phone, message, clicked);
  }

  /** A typing phase that ends on an invalid number has typed and sent nothing. */
  lemma ComposeUntouched(w: Web, phone: string, message: string, es: seq<Action>)
    requires Untouched(es)
    ensures var f := Compose(w, phone, message, es).flow;
            f.Halt? && f.outcome == InvalidNumber ==> Untouched(f.effects)
  {
    var first := CheckInvalid(w, FirstCheck, es);
    DismissalsKeep(es, first.effects);
    var search := ComposerFrom(w, first.effects, 0);
    DismissalsKeep(first.effects, search.effects);
    TypeIntoStops(w, search.effects, Split(message, '\n'));
    RescueUntouched(w, phone, message, search.effects, search.rounds);
  }

  /** No composer selector is shown at checkpoint `c`. */
  predicate NoComposerAt(w: Web, c: Checkpoint) {
    forall i :: 0 <= i < |InputSelectors| ==> !Shown(w.probe(c, InputSelectors[i]))
  }

  lemma NoComposerFound(w: Web, c: Checkpoint)
    requires Columns.FirstWhere(InputSelectors, ShownAt(w, c)).None?
    ensures NoComposerAt(w, c)
  {
    assert forall i :: 0 <= i < |InputSelectors| ==> !ShownAt(w, c)(InputSelectors[i]);
  }

  lemma ExtensionKeeps(es: seq<Action>, a: Action, r: seq<Action>)
    requires |es + [a]| <= |r| && r[..|es + [a]|] == es + [a]
    ensures a in r
  {
    assert r[|es|] == r[..|es + [a]|][|es|];
  }

  lemma FallbackNoChat(w: Web, phone: string, message: string, es: seq<Action>)
    ensures var f := Fallback(w, phone, message, es);
            f.Halt? && f.outcome == NoChatLoaded ==>
              Goto(ChatLinkWithText(phone, message)) in f.effects && NoComposerAt(w, FallbackSearch)
  {
    var reloaded := es + [Goto(ChatLinkWithText(phone, message))];
    if w.act(|es|, Goto(ChatLinkWithText(phone, message))).Completed? {
      var check := CheckInvalid(w, AfterReload, reloaded);
      if !check.invalid {
        if Columns.FirstWhere(InputSelectors, ShownAt(w, FallbackSearch)).None? {
          assert Fallback(w, phone, message, es) == Halt(NoChatLoaded, check.effects);
          ExtensionKeeps(es, Goto(ChatLinkWithText(phone, message)), check.effects);
          NoComposerFound(w, FallbackSearch);
        } else {
          assert Fallback(w, phone, message, es) == ClearAndType(w, check.effects, Split(message, '\n'));
          ClearAndTypeStops(w, check.effects, Split(message, '\n'));
        }
      }
    }
  }

  lemma RescueNoChat(w: Web, phone: string, message: string, es: seq<Action>, rounds: nat)
    ensures var c := Rescue(w, phone, message, es, rounds);
            c.flow.Halt? && c.flow.outcome == NoChatLoaded ==>
              Goto(ChatLinkWithText(phone, message)) in c.flow.effects && NoComposerAt(w, FallbackSearch)
              && c.rounds == rounds && !c.box
  {
    var last := CheckInvalid(w, FinalCheck, es);
    TypeIntoStops(w, last.effects + [ClickFooter], Split(message, '\n'));
    FallbackNoChat(w, phone, message, last.effects + [ClickFooter]);
  }

  /** "No chat loaded" comes only after all composer rounds and the URL reload with the message, which showed no composer. */
  lemma ComposeNoChat(w: Web, phone: string, message: string, es: seq<Action>)
    ensures var c := Compose(w, phone, message, es);
            c.flow.Halt? && c.flow.outcome == NoChatLoaded ==>
              Goto(ChatLinkWithText(phone, message)) in c.flow.effects && NoComposerAt(w, FallbackSearch)
              && c.rounds == ComposerAttempts && !c.box
  {
    var first := CheckInvalid(w, FirstCheck, es);
    var search := ComposerFrom(w, first.effects, 0);
    TypeIntoStops(w, search.effects, Split(message, '\n'));
    RescueNoChat(w, phone, message, search.effects, search.rounds);
  }

  /** Pressing send either performs exactly the send keys or stops on a timeout or an exception. */
  lemma PressSendKeys(w: Web, es: seq<Action>, found: bool, box: bool)
    ensures var f := PressSend(w, es, found, box);
            (f.Go? ==> f.effects == es + SendKeys(found, box))
            && (f.Halt? ==> f.outcome == TimedOutFailure || f.outcome.Failed?)
  {
    if !found && box {
      assert es + [ClickComposer] + [Press(Enter)] == es + ([ClickComposer] + [Press(Enter)]);
    }
  }

  /** A delivery tick is present in the open chat. */
  predicate TickShown(w: Web) {
    exists i :: 0 <= i < |TickSelectors| && Counted(w.probe(Ticks, TickSelectors[i]))
  }

  /** An invalid-number indicator is shown at checkpoint `c`. */
  predicate InvalidShown(w: Web, c: Checkpoint) {
    exists i :: 0 <= i < |InvalidSelectors| && Shown(w.probe(c, InvalidSelectors[i]))
  }

  lemma TickSearch(w: Web)
    ensures Columns.FirstWhere(TickSelectors, CountedAt(w, Ticks)).Some? <==> TickShown(w)
  {
    var r := Columns.FirstWhere(TickSelectors, CountedAt(w, Ticks));
    if r.Some? {
      assert CountedAt(w, Ticks)(TickSelectors[r.value]);
    } else {
      assert forall i :: 0 <= i < |TickSelectors| ==> !CountedAt(w, Ticks)(TickSelectors[i]);
    }
  }

  /** A press that fails gives a timeout or an exception. */
  lemma DispatchPressFails(w: Web, es: seq<Action>, box: bool)
    requires PressSend(w, es, SendFrom(w, 0).found.Some?, box).Halt?
    ensures var d := Dispatch(w, es, box).flow;
            d.outcome == TimedOutFailure || d.outcome.Failed?
  {
    PressSendKeys(w, es, SendFrom(w, 0).found.Some?, box);
  }

  /**
   * After a completed press the status is: not on WhatsApp when the
   * invalid-number popup then shows, else sent when a delivery tick is
   * present, else pending.
   */
  lemma DispatchPressed(w: Web, es: seq<Action>, box: bool)
    requires PressSend(w, es, SendFrom(w, 0).found.Some?, box).Go?
    ensures var d := Dispatch(w, es, box).flow;
            (d.outcome == NotOnWhatsApp <==> InvalidShown(w, AfterSend))
            && (d.outcome == Sent <==> !InvalidShown(w, AfterSend) && TickShown(w))
            && (d.outcome == SentPending <==> !InvalidShown(w, AfterSend) && !TickShown(w))
  {
    TickSearch(w);
  }

  /** The three delivered statuses are exactly the runs whose send press completed. */
  lemma DispatchStatus(w: Web, es: seq<Action>, box: bool)
    ensures var d := Dispatch(w, es, box).flow;
            d.outcome in {Sent, SentPending, NotOnWhatsApp} <==> PressSend(w, es, SendFrom(w, 0).found.Some?, box).Go?
  {
    if PressSend(w, es, SendFrom(w, 0).found.Some?, box).Halt? {
      DispatchPressFails(w, es, box);
    } else {
      DispatchPressed(w, es, box);
    }
  }

  /** After a completed press, the actions are the earlier ones, the send keys, then only popup dismissals. */
  lemma DispatchActions(w: Web, es: seq<Action>, box: bool)
    ensures var d := Dispatch(w, es, box).flow;
            var keys := SendKeys(SendFrom(w, 0).found.Some?, box);
            d.outcome in {Sent, SentPending, NotOnWhatsApp} ==>
              |es + keys| <= |d.effects| && d.effects[..|es + keys|] == es + keys
              && forall k :: |es + keys| <= k < |d.effects| ==> d.effects[k].Dismiss?
  {
    var pressed := PressSend(w, es, SendFrom(w, 0).found.Some?, box);
    if pressed.Go? {
      PressSendKeys(w, es, SendFrom(w, 0).found.Some?, box);
      var check := CheckInvalid(w, AfterSend, pressed.effects);
      assert Dispatch(w, es, box).flow.effects == check.effects;
    } else {
      DispatchPressFails(w, es, box);
    }
  }

  /** The send-button search of a page finds a button. */
  predicate ButtonFound(page: Option<Web>) {
    page.Some? && SendFrom(page.value, 0).found.Some?
  }

  /** Enter was pressed once if there was no send button to click, and the button clicked once otherwise, never both. */
  predicate SentOnce(es: seq<Action>, found: bool) {
    Count(es, Press(Enter)) == (if found then 0 else 1)
    && Count(es, ClickSend) == (if found then 1 else 0)
  }

  /** After unsent actions, a delivered send phase pressed Enter once or clicked the send button once. */
  lemma DispatchSendCounts(w: Web, es: seq<Action>, box: bool)
    requires Unsent(es)
    ensures var d := Dispatch(w, es, box).flow;
            d.outcome in {Sent, SentPending, NotOnWhatsApp} ==> SentOnce(d.effects, SendFrom(w, 0).found.Some?)
  {
    DispatchActions(w, es, box);
    var d := Dispatch(w, es, box).flow;
    if d.outcome in {Sent, SentPending, NotOnWhatsApp} {
      SendCounts(es, SendFrom(w, 0).found.Some?, box, d.effects);
    }
  }

  /** `part` occurs in `es` starting at position `j`. */
  predicate OccursAt(es: seq<Action>, j: int, part: seq<Action>) {
    0 <= j && j + |part| <= |es| && es[j..j + |part|] == part
  }

  /** A delivered send phase presses its keys right after what the actions so far ended in. */
  lemma DispatchAfter(w: Web, es: seq<Action>, box: bool, typed: seq<Action>)
    requires EndsIn(es, typed)
    ensures var d := Dispatch(w, es, box).flow;
            d.outcome in {Sent, SentPending, NotOnWhatsApp} ==>
              OccursAt(d.effects, |es| - |typed|, typed + SendKeys(SendFrom(w, 0).found.Some?, box))
  {
    DispatchActions(w, es, box);
    var d := Dispatch(w, es, box).flow;
    if d.outcome in {Sent, SentPending, NotOnWhatsApp} {
      TypedThenSent(es, typed, SendKeys(SendFrom(w, 0).found.Some?, box), d.effects);
    }
  }

  // ---------------------------------------------------------------------------
  // Properties of send_message as a whole
  // ---------------------------------------------------------------------------

  /** The actions before the first invalid-number check: open the chat, wait for it. */
  function Opened(phone: string): seq<Action> {
    [Goto(ChatLink(phone)), WaitForChat]
  }

  /** Opening the chat neither writes nor sends. */
  lemma OpenedQuiet(phone: string)
    ensures Untouched(Opened(phone)) && Unsent(Opened(phone))
  {
  }

  /** A run that reaches the send button. */
  predicate Delivered(o: Outcome) {
    o in {Sent, SentPending, NotOnWhatsApp}
  }

  /** The send phase ends delivered, or on a timeout or an exception. */
  lemma DispatchEnds(w: Web, es: seq<Action>, box: bool)
    ensures var d := Dispatch(w, es, box).flow;
            Delivered(d.outcome) || d.outcome == TimedOutFailure || d.outcome.Failed?
  {
    if PressSend(w, es, SendFrom(w, 0).found.Some?, box).Halt? {
      DispatchPressFails(w, es, box);
    } else {
      DispatchStatus(w, es, box);
    }
  }

  /** Once the chat link opened, the rest is `Finish` on the typing phase. */
  lemma DeliverOpened(w: Web, phone: string, message: string)
    requires w.act(0, Goto(ChatLink(phone))).Completed?
    ensures Deliver(Some(w), phone, message) == Finish(w, Compose(w, phone, message, Opened(phone)))
  {
    assert [] + [Goto(ChatLink(phone))] + [WaitForChat] == Opened(phone);
  }

  /** A chat link that fails to open ends the procedure with that exception. */
  lemma DeliverNotOpened(w: Web, phone: string, message: string)
    requires !w.act(0, Goto(ChatLink(phone))).Completed?
    ensures var d := Deliver(Some(w), phone, message);
            && (d.outcome == TimedOutFailure || d.outcome.Failed?)
            && d.effects == [Goto(ChatLink(phone))] && d.composerRounds == 0 && d.sendRounds == 0
  {
  }

  /** A typing phase that stopped is the result. */
  lemma FinishStopped(w: Web, c: Composed)
    requires c.flow.Halt?
    ensures Finish(w, c) == Delivery(c.flow.outcome, c.flow.effects, c.rounds, 0)
  {
  }

  /** A typing phase that completed is followed by the send phase. */
  lemma FinishSent(w: Web, c: Composed)
    requires c.flow.Go?
    ensures var s := Dispatch(w, c.flow.effects, c.box);
            Finish(w, c) == Delivery(s.flow.outcome, s.flow.effects, c.rounds, s.rounds)
  {
  }

  /** A status the send phase never gives comes from a typing phase that stopped. */
  lemma FinishHalted(w: Web, c: Composed, o: Outcome)
    requires !Delivered(o) && o != TimedOutFailure && !o.Failed?
    ensures Finish(w, c).outcome == o ==> c.flow.Halt? && Finish(w, c) == Delivery(o, c.flow.effects, c.rounds, 0)
  {
    if c.flow.Go? {
      DispatchEnds(w, c.flow.effects, c.box);
    }
  }

  /** An untouched "invalid number" stop carries over to the result. */
  lemma FinishUntouched(w: Web, c: Composed)
    requires c.flow.Halt? && c.flow.outcome == InvalidNumber ==> Untouched(c.flow.effects)
    ensures Finish(w, c).outcome == InvalidNumber ==> Untouched(Finish(w, c).effects) && Finish(w, c).sendRounds == 0
  {
    FinishHalted(w, c, InvalidNumber);
  }

  /** Every status but "no browser" needs a page, and without one nothing is done. */
  lemma NoBrowserIffNoPage(page: Option<Web>, phone: string, message: string)
    ensures var d := Deliver(page, phone, message);
            (d.outcome == NoBrowser <==> page.None?)
            && (page.None? ==> d.effects == [] && d.composerRounds == 0 && d.sendRounds == 0)
  {
    if page.Some? {
      var w := page.value;
      if w.act(0, Goto(ChatLink(phone))).Completed? {
        DeliverOpened(w, phone, message);
        ComposeStops(w, phone, message, Opened(phone));
        FinishHalted(w, Compose(w, phone, message, Opened(phone)), NoBrowser);
      } else {
        DeliverNotOpened(w, phone, message);
      }
    }
  }

  /** An invalid number leaves nothing typed and nothing sent, and no send-button search. */
  lemma InvalidNumberTouchesNothing(page: Option<Web>, phone: string, message: string)
    ensures var d := Deliver(page, phone, message);
            d.outcome == InvalidNumber ==> Untouched(d.effects) && d.sendRounds == 0
  {
    if page.Some? {
      var w := page.value;
      if w.act(0, Goto(ChatLink(phone))).Completed? {
        DeliverOpened(w, phone, message);
        OpenedQuiet(phone);
        ComposeUntouched(w, phone, message, Opened(phone));
        FinishUntouched(w, Compose(w, phone, message, Opened(phone)));
      } else {
        DeliverNotOpened(w, phone, message);
      }
    }
  }

  /** An invalid-number indicator at the first check ends the run there as "Invalid Number". */
  lemma InvalidAtFirstCheck(w: Web, phone: string, message: string)
    requires w.act(0, Goto(ChatLink(phone))).Completed?
    requires InvalidShown(w, FirstCheck)
    ensures var d := Deliver(Some(w), phone, message);
            d.outcome == InvalidNumber && d.composerRounds == 0 && d.sendRounds == 0
  {
    DeliverOpened(w, phone, message);
    var c := Compose(w, phone, message, Opened(phone));
    assert c.flow == Halt(InvalidNumber, CheckInvalid(w, FirstCheck, Opened(phone)).effects) && c.rounds == 0;
    FinishStopped(w, c);
  }

  /** What a typing phase that stopped as "no chat loaded" showed carries over to the result. */
  lemma FinishNoChat(w: Web, c: Composed, reload: Action)
    requires c.flow.Halt? && c.flow.outcome == NoChatLoaded ==>
               reload in c.flow.effects && NoComposerAt(w, FallbackSearch) && c.rounds == ComposerAttempts
    ensures var d := Finish(w, c);
            d.outcome == NoChatLoaded ==>
              reload in d.effects && NoComposerAt(w, FallbackSearch) && d.composerRounds == ComposerAttempts && d.sendRounds == 0
  {
    FinishHalted(w, c, NoChatLoaded);
  }

  /** "No chat loaded" comes after all composer rounds and the reload with the message, which showed no composer. */
  lemma NoChatLoadedMeans(page: Option<Web>, phone: string, message: string)
    ensures var d := Deliver(page, phone, message);
            d.outcome == NoChatLoaded ==>
              page.Some? && Goto(ChatLinkWithText(phone, message)) in d.effects && NoComposerAt(page.value, FallbackSearch)
              && d.composerRounds == ComposerAttempts && d.sendRounds == 0
  {
    if page.Some? {
      var w := page.value;
      if w.act(0, Goto(ChatLink(phone))).Completed? {
        DeliverOpened(w, phone, message);
        ComposeNoChat(w, phone, message, Opened(phone));
        FinishNoChat(w, Compose(w, phone, message, Opened(phone)), Goto(ChatLinkWithText(phone, message)));
      } else {
        DeliverNotOpened(w, phone, message);
      }
    }
  }

  /** What the final status says about the page after the send press. */
  lemma DeliveredStatus(page: Option<Web>, phone: string, message: string)
    ensures var d := Deliver(page, phone, message);
            (d.outcome == Sent ==> page.Some? && !InvalidShown(page.value, AfterSend) && TickShown(page.value))
            && (d.outcome == SentPending ==> page.Some? && !InvalidShown(page.value, AfterSend) && !TickShown(page.value))
            && (d.outcome == NotOnWhatsApp ==> page.Some? && InvalidShown(page.value, AfterSend))
  {
    if page.Some? {
      var w := page.value;
      if w.act(0, Goto(ChatLink(phone))).Completed? {
        DeliverOpened(w, phone, message);
        var c := Compose(w, phone, message, Opened(phone));
        if c.flow.Halt? {
          FinishStopped(w, c);
          ComposeStops(w, phone, message, Opened(phone));
        } else if PressSend(w, c.flow.effects, SendFrom(w, 0).found.Some?, c.box).Halt? {
          FinishSent(w, c);
          DispatchPressFails(w, c.flow.effects, c.box);
        } else {
          FinishSent(w, c);
          DispatchPressed(w, c.flow.effects, c.box);
        }
      } else {
        DeliverNotOpened(w, phone, message);
      }
    }
  }

  lemma {:induction false} UnsentCounts(es: seq<Action>)
    requires Unsent(es)
    ensures Count(es, Press(Enter)) == 0 && Count(es, ClickSend) == 0
  {
    if |es| > 0 {
      assert !Sending(es[0]);
      UnsentCounts(es[1..]);
    }
  }

  /** Sent-free actions, the send keys, then dismissals: one click on the button, or else one Enter. */
  lemma SendCounts(es: seq<Action>, found: bool, box: bool, all: seq<Action>)
    requires Unsent(es)
    requires |es + SendKeys(found, box)| <= |all| && all[..|es + SendKeys(found, box)|] == es + SendKeys(found, box)
    requires forall k :: |es + SendKeys(found, box)| <= k < |all| ==> all[k].Dismiss?
    ensures Count(all, Press(Enter)) == (if found then 0 else 1)
    ensures Count(all, ClickSend) == (if found then 1 else 0)
  {
    var keys := SendKeys(found, box);
    var rest := all[|es + keys|..];
    assert all == es + keys + rest;
    assert Unsent(rest) by {
      assert forall k :: 0 <= k < |rest| ==> rest[k] == all[|es + keys| + k];
    }
    UnsentCounts(es);
    UnsentCounts(rest);
    CountAppend(es + keys, rest, Press(Enter));
    CountAppend(es, keys, Press(Enter));
    CountAppend(es + keys, rest, ClickSend);
    CountAppend(es, keys, ClickSend);
    if !found && box {
      assert keys[1..][1..] == [];
    } else {
      assert keys[1..] == [];
    }
  }

  /** After an unsent typing phase, a delivered result was sent exactly once. */
  lemma FinishSentOnce(w: Web, c: Composed)
    requires c.flow.Halt? ==> !Delivered(c.flow.outcome)
    requires c.flow.Go? ==> Unsent(c.flow.effects)
    ensures Delivered(Finish(w, c).outcome) ==> SentOnce(Finish(w, c).effects, SendFrom(w, 0).found.Some?)
  {
    if c.flow.Go? {
      FinishSent(w, c);
      DispatchSendCounts(w, c.flow.effects, c.box);
    }
  }

  lemma SentOnceOn(w: Web, es: seq<Action>, p: bool)
    requires p ==> SentOnce(es, SendFrom(w, 0).found.Some?)
    ensures p ==> SentOnce(es, ButtonFound(Some(w)))
  {
  }

  lemma ComposedSentOnce(w: Web, phone: string, message: string)
    ensures var d := Finish(w, Compose(w, phone, message, Opened(phone)));
            Delivered(d.outcome) ==> SentOnce(d.effects, ButtonFound(Some(w)))
  {
    OpenedQuiet(phone);
    ComposeStops(w, phone, message, Opened(phone));
    ComposeTyped(w, phone, message, Opened(phone));
    var d := Finish(w, Compose(w, phone, message, Opened(phone)));
    FinishSentOnce(w, Compose(w, phone, message, Opened(phone)));
    SentOnceOn(w, d.effects, Delivered(d.outcome));
  }

  /** A delivered run pressed Enter exactly once when no send button was found, and otherwise only clicked the button once. */
  lemma SendPressedOnce(page: Option<Web>, phone: string, message: string)
    ensures var d := Deliver(page, phone, message);
            Delivered(d.outcome) ==> page.Some? && SentOnce(d.effects, ButtonFound(page))
  {
    if page.Some? {
      var w := page.value;
      if w.act(0, Goto(ChatLink(phone))).Completed? {
        DeliverOpened(w, phone, message);
        ComposedSentOnce(w, phone, message);
      } else {
        DeliverNotOpened(w, phone, message);
      }
    }
  }

  lemma TypedThenSent(es: seq<Action>, typed: seq<Action>, keys: seq<Action>, all: seq<Action>)
    requires EndsIn(es, typed)
    requires |es + keys| <= |all| && all[..|es + keys|] == es + keys
    ensures OccursAt(all, |es| - |typed|, typed + keys)
  {
    var j := |es| - |typed|;
    assert all[j..j + |typed + keys|] == all[..|es + keys|][j..];
    assert (es + keys)[j..] == es[j..] + keys;
  }

  /** Somewhere in `es`, the actions `typed` are followed at once by the send keys for `found`. */
  predicate SendsRightAfter(es: seq<Action>, typed: seq<Action>, found: bool) {
    exists j, box: bool :: 0 <= j <= |es| && OccursAt(es, j, typed + SendKeys(found, box))
  }

  /** A typing phase ending in `typed` puts `typed` right before the send keys of a delivered result. */
  lemma FinishTypedThenSent(w: Web, c: Composed, typed: seq<Action>)
    requires c.flow.Halt? ==> !Delivered(c.flow.outcome)
    requires c.flow.Go? ==> EndsIn(c.flow.effects, typed)
    ensures Delivered(Finish(w, c).outcome) ==> SendsRightAfter(Finish(w, c).effects, typed, ButtonFound(Some(w)))
  {
    if c.flow.Go? {
      FinishSent(w, c);
      DispatchAfter(w, c.flow.effects, c.box, typed);
      assert Delivered(Finish(w, c).outcome) ==> SendsRightAfter(Finish(w, c).effects, typed, SendFrom(w, 0).found.Some?);
    }
    SendsRightAfterOn(w, Finish(w, c).effects, typed, Delivered(Finish(w, c).outcome));
  }

  lemma SendsRightAfterOn(w: Web, es: seq<Action>, typed: seq<Action>, p: bool)
    requires p ==> SendsRightAfter(es, typed, SendFrom(w, 0).found.Some?)
    ensures p ==> SendsRightAfter(es, typed, ButtonFound(Some(w)))
  {
  }

  lemma ComposedTypedThenSent(w: Web, phone: string, message: string)
    ensures var d := Finish(w, Compose(w, phone, message, Opened(phone)));
            Delivered(d.outcome) ==> SendsRightAfter(d.effects, MessageKeys(message), ButtonFound(Some(w)))
  {
    OpenedQuiet(phone);
    ComposeStops(w, phone, message, Opened(phone));
    ComposeTyped(w, phone, message, Opened(phone));
    FinishTypedThenSent(w, Compose(w, phone, message, Opened(phone)), MessageKeys(message));
  }

  /** A delivered run typed the whole message and pressed the send keys right after it. */
  lemma MessageTypedBeforeSend(page: Option<Web>, phone: string, message: string)
    ensures var d := Deliver(page, phone, message);
            Delivered(d.outcome) ==>
              page.Some? && SendsRightAfter(d.effects, MessageKeys(message), ButtonFound(page))
  {
    if page.Some? {
      var w := page.value;
      if w.act(0, Goto(ChatLink(phone))).Completed? {
        DeliverOpened(w, phone, message);
        ComposedTypedThenSent(w, phone, message);
      } else {
        DeliverNotOpened(w, phone, message);
      }
    }
  }
}
