/**
 * The campaign run of the web app: clean the profile lock, launch the
 * browser, send every cleaned lead its pitch with a cooling-down pause
 * between leads, keep the counters and the live console, close the browser;
 * then the results summary and the country-code format check.
 *
 * Everything the run cannot see is an input: the page each send meets, the
 * template and pause length drawn at random, the timestamp each send
 * returns, and the template bodies.
 */
module Campaign {
  import opened Wrappers
  import opened Text
  import Delivery
  import Messages
  import Pacing
  import ProfileLock
  import Session

  /** A row of the cleaned table: the `Name` and `Phone` the loop reads. */
  datatype Lead = Lead(name: string, phone: string)

  /** One entry of `results`. */
  datatype Record = Record(name: string, phone: string, status: string, timestamp: string)

  /**
   * What the loop cannot compute: for lead `i`, the page `send_message`
   * meets, the template `random.choice` picks, the pause `random.randint`
   * draws after it and the timestamp the send returns; and the template
   * bodies.
   */
  datatype Env = Env(
    page: nat -> Delivery.Web, pick: nat -> Messages.TemplateIndex, delay: nat -> PauseSeconds,
    clock: nat -> string, render: (nat, string) -> string)

  /** The pause the loop asks for: `wait_with_countdown(60, 120, ...)`. */
  const PauseMin := 60
  const PauseMax := 120

  /** A pause length `random.randint(60, 120)` can draw. */
  type PauseSeconds = d: int | PauseMin <= d <= PauseMax witness PauseMin

  /** How many log lines the live console shows. */
  const ConsoleLines := 10

  // ---------------------------------------------------------------------------
  // Status classification and the console
  // ---------------------------------------------------------------------------

  /** `"Sent" in status or "✅" in status`. */
  predicate IsSent(status: string) {
    Contains(status, "Sent") || Contains(status, "✅")
  }

  /** The two outcomes that mean the message went out are counted as sent. */
  lemma SentOutcomesCount(o: Delivery.Outcome)
    requires o == Delivery.Sent || o == Delivery.SentPending
    ensures IsSent(Delivery.Label(o))
  {
    StartsWithSelf("Sent");
    if o == Delivery.Sent {
      assert StartsWith(Delivery.Label(o)[0..], "Sent");
    } else {
      assert StartsWith(Delivery.Label(o)[0..], "Sent");
    }
    ContainsAt(Delivery.Label(o), "Sent", 0);
  }

  lemma StartsWithSelf(s: string)
    ensures StartsWith(s, s)
  {
    assert s[..|s|] == s;
  }

  /** Every failure status with a fixed text is counted as failed. */
  lemma FixedFailuresCount(o: Delivery.Outcome)
    requires !o.Sent? && !o.SentPending? && !o.Failed?
    ensures !IsSent(Delivery.Label(o))
  {
    match o
    case InvalidNumber => LacksMarks("Failed (Invalid Number)");
    case NotOnWhatsApp => LacksMarks("Failed (Not on WhatsApp)");
    case NoChatLoaded => LacksMarks("Failed (No chat loaded)");
    case NoBrowser => LacksMarks("Failed (No browser)");
    case TimedOutFailure => LacksMarks("Failed (Timeout)");
  }

  /** A status with neither an 'S' nor a check mark in it is not counted as sent. */
  lemma LacksMarks(s: string)
    requires 'S' !in s && '✅' !in s
    ensures !IsSent(s)
  {
    LacksFirstChar(s, "Sent");
    LacksFirstChar(s, "✅");
  }

  /**
   * An exception whose text starts with "Sent" gives the status
   * "Failed (Sent...)", which the substring test counts as sent.
   */
  lemma FailureMentioningSentCounts(reason: string)
    requires StartsWith(reason, "Sent")
    ensures IsSent(Delivery.Label(Delivery.Failed(reason)))
  {
    var s := Delivery.Label(Delivery.Failed(reason));
    var t := Take(reason, 50);
    assert s == "Failed (" + t + ")";
    assert StartsWith(s[8..], "Sent") by {
      assert s[8..][..4] == t[..4] == reason[..4];
    }
    ContainsAt(s, "Sent", 8);
  }

  const SuccessClass := "console-success"
  const ErrorClass := "console-error"

  /** The console line for one result: a success line or a failure line with the status. */
  function LogLine(r: Record): string {
    if IsSent(r.status) then
      "<span class=\"" + SuccessClass + "\">[" + r.timestamp + "] ✅ SUCCESS: " + r.name + " (" + r.phone + ")</span>"
    else
      "<span class=\"" + ErrorClass + "\">[" + r.timestamp + "] ❌ FAILED: " + r.name + " (" + r.phone + ") - " + r.status + "</span>"
  }

  /** The line's style says how the counter classified the result. */
  lemma LogLineClass(r: Record)
    ensures StartsWith(LogLine(r), "<span class=\"" + SuccessClass) <==> IsSent(r.status)
  {
    var line := LogLine(r);
    var prefix := "<span class=\"" + SuccessClass;
    if IsSent(r.status) {
      assert line[..|prefix|] == prefix;
    } else {
      assert line[21] == 'e' && prefix[21] == 's';
    }
  }

  /** `xs[-n:]`: the last `min(n, |xs|)` elements, in order. */
  function LastN<T>(xs: seq<T>, n: nat): (r: seq<T>)
    ensures |r| == (if |xs| < n then |xs| else n)
    ensures forall k :: 0 <= k < |r| ==> r[k] == xs[|xs| - |r| + k]
  {
    if |xs| <= n then xs else xs[|xs| - n..]
  }

  // ---------------------------------------------------------------------------
  // The loop, as values
  // ---------------------------------------------------------------------------

  /** `send_message` sees the bot's page when it has one. */
  function PageFor(env: Env, i: nat, connected: bool): Option<Delivery.Web> {
    if connected then Some(env.page(i)) else None
  }

  /** The pitch for lead `i`. */
  function MessageFor(lead: Lead, env: Env, i: nat): string {
    Messages.GenerateMessage(lead.name, env.pick(i), env.render)
  }

  /** The status `send_message` returns for `lead`, the `i`-th. */
  function StatusFor(lead: Lead, env: Env, connected: bool, i: nat): string {
    Delivery.Label(Delivery.Deliver(PageFor(env, i, connected), lead.phone, MessageFor(lead, env, i)).outcome)
  }

  /** `send_message` as a function of the lead and its position. */
  function Sender(env: Env, connected: bool): (Lead, nat) -> string {
    (lead: Lead, i: nat) => StatusFor(lead, env, connected, i)
  }

  /** The status of each lead, in order, when `send` gives the status of one. */
  function Statuses(leads: seq<Lead>, send: (Lead, nat) -> string): (r: seq<string>)
    ensures |r| == |leads|
  {
    seq(|leads|, i requires 0 <= i < |leads| => send(leads[i], i))
  }

  lemma StatusesStep(leads: seq<Lead>, send: (Lead, nat) -> string, i: nat)
    requires i < |leads|
    ensures Statuses(leads[..i + 1], send) == Statuses(leads[..i], send) + [send(leads[i], i)]
  {
    var before := Statuses(leads[..i], send);
    var after := Statuses(leads[..i + 1], send);
    assert forall k :: 0 <= k < i ==> after[k] == before[k];
  }

  /** The result records: each lead's name and phone with its status and the send's timestamp. */
  function Records(leads: seq<Lead>, env: Env, statuses: seq<string>): seq<Record>
    requires |statuses| == |leads|
  {
    seq(|leads|, i requires 0 <= i < |leads| => Record(leads[i].name, leads[i].phone, statuses[i], env.clock(i)))
  }

  /** How many of the records the counter counts as sent. */
  function SentIn(rs: seq<Record>): (n: nat)
    ensures n <= |rs|
  {
    if |rs| == 0 then 0 else SentIn(rs[..|rs| - 1]) + (if IsSent(rs[|rs| - 1].status) then 1 else 0)
  }

  function Logs(rs: seq<Record>): seq<string> {
    seq(|rs|, k requires 0 <= k < |rs| => LogLine(rs[k]))
  }

  /** The first `count` pauses: pause `i` follows lead `i`. */
  function Pauses(env: Env, count: nat): seq<seq<Pacing.Effect>> {
    seq(count, i requires 0 <= i < count => Pacing.Schedule(env.delay(i), true))
  }

  lemma PausesStep(env: Env, count: nat)
    ensures Pauses(env, count + 1) == Pauses(env, count) + [Pacing.Schedule(env.delay(count), true)]
  {
  }

  /** Pauses follow every lead but the last. */
  function PauseCount(leads: nat): nat {
    if leads == 0 then 0 else leads - 1
  }

  /** The counters, the records, the console and the pauses after the loop. */
  datatype Report = Report(
    records: seq<Record>, sent: nat, failed: nat, console: seq<string>, pauses: seq<seq<Pacing.Effect>>)

  /** The loop's final state, for the statuses the sends returned. */
  function Run(leads: seq<Lead>, env: Env, statuses: seq<string>): Report
    requires |statuses| == |leads|
  {
    var rs := Records(leads, env, statuses);
    Report(rs, SentIn(rs), |rs| - SentIn(rs), LastN(Logs(rs), ConsoleLines), Pauses(env, PauseCount(|leads|)))
  }

  // ---------------------------------------------------------------------------
  // The loop
  // ---------------------------------------------------------------------------

  /** The `for seq_idx, (idx, row) in enumerate(df.iterrows())` loop, with `connected` saying whether the bot has a page. */
  method CampaignLoop(leads: seq<Lead>, env: Env, connected: bool) returns (report: Report)
    ensures report == Run(leads, env, Statuses(leads, Sender(env, connected)))
  {
    ghost var send := Sender(env, connected);
    ghost var statuses: seq<string> := [];
    var records: seq<Record> := [];
    var logs: seq<string> := [];
    var console: seq<string> := [];
    var pauses: seq<seq<Pacing.Effect>> := [];
    var sent, failed := 0, 0;
    for i := 0 to |leads|
      invariant statuses == Statuses(leads[..i], send)
      invariant records == Records(leads[..i], env, statuses)
      invariant logs == Logs(records)
      invariant console == LastN(logs, ConsoleLines)
      invariant sent == SentIn(records) && failed == i - sent
      invariant |pauses| == (if i == |leads| then PauseCount(i) else i)
      invariant pauses == Pauses(env, |pauses|)
    {
      statuses, records, logs, console, sent, failed := Visit(leads, env, connected, i, statuses, records, logs, sent, failed);
      if i < |leads| - 1 {
        var ticks := Pacing.WaitWithCountdown(PauseMin, PauseMax, env.delay(i), true);
        PausesStep(env, |pauses|);
        pauses := pauses + [ticks];
      }
    }
    assert leads[..|leads|] == leads;
    report := Report(records, sent, failed, console, pauses);
  }

  /** Send lead `i` its pitch and book the result: the loop body up to the pause. */
  method Visit(leads: seq<Lead>, env: Env, connected: bool, i: nat, ghost statuses: seq<string>,
               records: seq<Record>, logs: seq<string>, sent: nat, failed: nat)
    returns (ghost statuses': seq<string>, records': seq<Record>, logs': seq<string>, console': seq<string>,
             sent': nat, failed': nat)
    requires i < |leads|
    requires statuses == Statuses(leads[..i], Sender(env, connected))
    requires records == Records(leads[..i], env, statuses)
    requires logs == Logs(records) && sent == SentIn(records) && failed == i - sent
    ensures statuses' == Statuses(leads[..i + 1], Sender(env, connected))
    ensures records' == Records(leads[..i + 1], env, statuses')
    ensures logs' == Logs(records') && console' == LastN(logs', ConsoleLines)
    ensures sent' == SentIn(records') && failed' == i + 1 - sent'
  {
    var lead := leads[i];
    var status := SendTo(lead, env, connected, i);
    StatusesStep(leads, Sender(env, connected), i);
    statuses' := statuses + [status];
    RecordsStep(leads, env, statuses', i);
    records', logs', console', sent', failed' := Book(records, logs, sent, failed, lead, status, env.clock(i));
  }

  /** Append one lead's record, count it and log it (the body of the loop after the send). */
  method Book(records: seq<Record>, logs: seq<string>, sent: nat, failed: nat, lead: Lead, status: string, timestamp: string)
    returns (records': seq<Record>, logs': seq<string>, console': seq<string>, sent': nat, failed': nat)
    requires logs == Logs(records) && sent == SentIn(records) && failed == |records| - sent
    ensures records' == records + [Record(lead.name, lead.phone, status, timestamp)]
    ensures logs' == Logs(records') && console' == LastN(logs', ConsoleLines)
    ensures sent' == SentIn(records') && failed' == |records'| - sent'
  {
    var record := Record(lead.name, lead.phone, status, timestamp);
    records' := records + [record];
    assert records'[..|records'| - 1] == records;
    sent', failed' := sent, failed;
    if IsSent(status) {
      sent' := sent + 1;
    } else {
      failed' := failed + 1;
    }
    logs' := logs + [LogLine(record)];
    console' := LastN(logs', ConsoleLines);
  }

  lemma RecordsStep(leads: seq<Lead>, env: Env, statuses: seq<string>, i: nat)
    requires i < |leads| && |statuses| == i + 1
    ensures Records(leads[..i + 1], env, statuses)
            == Records(leads[..i], env, statuses[..i]) + [Record(leads[i].name, leads[i].phone, statuses[i], env.clock(i))]
  {
  }

  /** Generate the pitch for one lead and send it. */
  method SendTo(lead: Lead, env: Env, connected: bool, i: nat) returns (status: string)
    ensures status == Sender(env, connected)(lead, i)
  {
    var message := Messages.GenerateMessage(lead.name, env.pick(i), env.render);
    var outcome, effects, composerRounds, sendRounds :=
      Delivery.SendMessage(PageFor(env, i, connected), lead.phone, message);
    status := Delivery.Label(outcome);
  }

  // ---------------------------------------------------------------------------
  // What the loop promises
  // ---------------------------------------------------------------------------

  /** One record per lead, in lead order, with the lead's name and phone, the send's status and its timestamp. */
  lemma OneRecordPerLead(leads: seq<Lead>, env: Env, connected: bool, i: nat)
    requires i < |leads|
    ensures var r := Run(leads, env, Statuses(leads, Sender(env, connected)));
            && |r.records| == |leads|
            && r.records[i].name == leads[i].name && r.records[i].phone == leads[i].phone
            && r.records[i].timestamp == env.clock(i)
            && r.records[i].status == Delivery.Label(Delivery.Deliver(PageFor(env, i, connected), leads[i].phone, MessageFor(leads[i], env, i)).outcome)
  {
  }

  /** Every result increments exactly one counter. */
  lemma CountersAddUp(leads: seq<Lead>, env: Env, statuses: seq<string>)
    requires |statuses| == |leads|
    ensures var r := Run(leads, env, statuses);
            r.sent + r.failed == |leads| && r.sent == SentIn(r.records)
  {
  }

  /** A bot without a page fails every send, so nothing is counted as sent. */
  lemma NoPageNothingSent(leads: seq<Lead>, env: Env)
    ensures var r := Run(leads, env, Statuses(leads, Sender(env, false)));
            r.sent == 0 && r.failed == |leads|
  {
    var statuses := Statuses(leads, Sender(env, false));
    var rs := Records(leads, env, statuses);
    FixedFailuresCount(Delivery.NoBrowser);
    forall k | 0 <= k < |rs|
      ensures !IsSent(rs[k].status)
    {
      assert rs[k].status == Sender(env, false)(leads[k], k) == StatusFor(leads[k], env, false, k);
    }
    NoneSent(rs);
  }

  lemma {:induction false} NoneSent(rs: seq<Record>)
    requires forall k :: 0 <= k < |rs| ==> !IsSent(rs[k].status)
    ensures SentIn(rs) == 0
  {
    if |rs| > 0 {
      NoneSent(rs[..|rs| - 1]);
    }
  }

  /** The console shows the last ten log lines, or all of them when there are fewer, in order. */
  lemma ConsoleWindow(leads: seq<Lead>, env: Env, statuses: seq<string>)
    requires |statuses| == |leads|
    ensures var r := Run(leads, env, statuses);
            var logs := Logs(r.records);
            && |r.console| == (if |leads| < ConsoleLines then |leads| else ConsoleLines)
            && r.console == logs[|logs| - |r.console|..]
  {
    var r := Run(leads, env, statuses);
    var logs := Logs(r.records);
    assert r.console == logs[|logs| - |r.console|..];
  }

  /**
   * A pause follows every lead but the last; pause `i` counts down from its
   * drawn length, 60 to 120 seconds, to 1.
   */
  lemma PausesBetweenLeads(leads: seq<Lead>, env: Env, statuses: seq<string>, i: nat)
    requires |statuses| == |leads|
    ensures |Run(leads, env, statuses).pauses| == PauseCount(|leads|)
    ensures i < PauseCount(|leads|) ==>
              var p := Run(leads, env, statuses).pauses[i];
              && Pacing.Notified(p) == Pacing.Countdown(env.delay(i))
              && PauseMin <= Pacing.Slept(p) <= PauseMax
  {
    if i < PauseCount(|leads|) {
      Pacing.ScheduleMeans(env.delay(i), true);
    }
  }

  // ---------------------------------------------------------------------------
  // The results summary
  // ---------------------------------------------------------------------------

  /** The records whose status matches `Sent|✅`. */
  function SentRows(rs: seq<Record>): (r: seq<Record>)
    ensures forall x :: x in r <==> x in rs && IsSent(x.status)
  {
    if |rs| == 0 then []
    else (if IsSent(rs[0].status) then [rs[0]] else []) + SentRows(rs[1..])
  }

  datatype Summary = Summary(total: nat, sent: nat, failed: int)

  /** The metrics shown once the campaign is complete. */
  function Summarize(rs: seq<Record>): Summary {
    var sent := |SentRows(rs)|;
    Summary(|rs|, sent, |rs| - sent)
  }

  lemma {:induction false} SentRowsAppend(a: seq<Record>, b: seq<Record>)
    ensures SentRows(a + b) == SentRows(a) + SentRows(b)
    decreases |a|
  {
    if |a| == 0 {
      assert a + b == b;
    } else {
      assert (a + b)[1..] == a[1..] + b;
      SentRowsAppend(a[1..], b);
    }
  }

  lemma {:induction false} SentRowsCount(rs: seq<Record>)
    ensures |SentRows(rs)| == SentIn(rs)
    decreases |rs|
  {
    if |rs| > 0 {
      var init := rs[..|rs| - 1];
      assert rs == init + [rs[|rs| - 1]];
      SentRowsAppend(init, [rs[|rs| - 1]]);
      SentRowsCount(init);
    }
  }

  /** The summary recounts the results and agrees with the loop's counters. */
  lemma SummaryAgrees(leads: seq<Lead>, env: Env, statuses: seq<string>)
    requires |statuses| == |leads|
    ensures var r := Run(leads, env, statuses);
            Summarize(r.records) == Summary(|leads|, r.sent, r.failed)
  {
    SentRowsCount(Records(leads, env, statuses));
  }

  // ---------------------------------------------------------------------------
  // The campaign
  // ---------------------------------------------------------------------------

  datatype CampaignRun =
    | Stopped(error: string)
    | Completed(report: Report, closeCalls: seq<Session.Call>)

  /**
   * Clean the lock, launch the browser, run the loop, close the browser.
   * A failed cleanup or launch shows its message and stops the script
   * without closing anything.
   */
  method RunCampaign(
    bot: Session.WhatsAppBot, fsApp: ProfileLock.FileSystem, fsLaunch: ProfileLock.FileSystem,
    eng: Session.Engine, io: Session.Closer, leads: seq<Lead>, env: Env)
    returns (run: CampaignRun)
    modifies bot
    ensures var cleaned := ProfileLock.Cleanup(fsApp).result;
            var launched := Session.Launch(old(bot.State()), fsLaunch, eng);
            && (!cleaned.Done? ==> run == Stopped("❌ " + ProfileLock.Message(cleaned)) && bot.State() == old(bot.State()))
            && (cleaned.Done? && !launched.ok ==> run == Stopped("❌ " + launched.message) && bot.State() == launched.state)
            && (cleaned.Done? && launched.ok ==>
                  && run == Completed(Run(leads, env, Statuses(leads, Sender(env, true))), Session.Close(launched.state, io).calls)
                  && bot.State() == Session.Close(launched.state, io).state)
  {
    var cleaned, cleanup := ProfileLock.ForceBrowserCleanup(fsApp);
    if !cleaned.Done? {
      return Stopped("❌ " + ProfileLock.Message(cleaned));
    }
    Session.LaunchSucceeds(bot.State(), fsLaunch, eng);
    var ok, message, active, launchCleanup, calls := bot.LaunchBrowser(fsLaunch, eng);
    if !ok {
      return Stopped("❌ " + message);
    }
    var report := CampaignLoop(leads, env, bot.page.Some?);
    var closed, closeMessage, closeCalls := bot.CloseBrowser(io);
    return Completed(report, closeCalls);
  }

  // ---------------------------------------------------------------------------
  // The country-code check
  // ---------------------------------------------------------------------------

  /**
   * `re.match(r'^\+\d{1,3}$', code)`: a plus sign and one to three digits,
   * where `$` also matches before a final newline.
   */
  predicate ValidCountryCode(code: string) {
    var body := Unterminated(code);
    2 <= |body| <= 4 && body[0] == '+' && forall k :: 1 <= k < |body| ==> IsDigit(body[k])
  }

  /** The text `$` anchors against: without one final newline, if there is one. */
  function Unterminated(code: string): string {
    if |code| > 0 && code[|code| - 1] == '\n' then code[..|code| - 1] else code
  }

  predicate ShortDigits(digits: string) {
    1 <= |digits| <= 3 && forall k :: 0 <= k < |digits| ==> IsDigit(digits[k])
  }

  /** The accepted codes are exactly `+` and one to three digits, optionally followed by one newline. */
  lemma CountryCodeShape(code: string)
    ensures ValidCountryCode(code) <==>
              exists digits :: ShortDigits(digits) && (code == "+" + digits || code == "+" + digits + "\n")
  {
    if ValidCountryCode(code) {
      var body := Unterminated(code);
      var digits := body[1..];
      assert forall k :: 0 <= k < |digits| ==> digits[k] == body[k + 1];
      assert ShortDigits(digits);
      assert body == "+" + digits;
      if |code| > 0 && code[|code| - 1] == '\n' {
        assert code == body + "\n";
      }
    } else {
      forall digits | ShortDigits(digits)
        ensures code != "+" + digits && code != "+" + digits + "\n"
      {
        var c := "+" + digits;
        assert c[|c| - 1] != '\n' by {
          assert c[|c| - 1] == digits[|digits| - 1];
        }
        assert (c + "\n")[..|c|] == c;
        assert forall k :: 1 <= k < |c| ==> c[k] == digits[k - 1];
      }
    }
  }
}
