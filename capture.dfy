/**
 * `capture`: launch a headless browser, open a page, load the report,
 * wait for its images and its `.match_history` marker, screenshot it to a
 * timestamped file and send that file to the webhook; the browser is
 * closed in a `finally` block. Browser operations are opaque steps whose
 * failure is injected as the set of steps that throw; the clock reading
 * `Date.now()` and the webhook's answer are parameters. The procedure
 * records the steps it ran, in order.
 */
module Capture {
  import opened Text
  import Discord

  /**
   * One awaited operation of `capture`: `puppeteer.launch`, `newPage`,
   * `setViewport` (850 x 900), `goto` of the report URL (60 s bound), the
   * wait for every image to load or fail, `waitForSelector` of the ready
   * marker (10 s bound), the full-page `screenshot`, `sendToDiscord("M", …)`
   * and `browser.close`.
   */
  datatype Step =
    | Launch
    | NewPage
    | SetViewport
    | Goto
    | WaitImages
    | WaitForSelector
    | Screenshot
    | Dispatch
    | Close

  /** How the promise returned by `capture()` settles. */
  datatype Completion = Resolved | Rejected(at: Step)

  /** `screenshots/screenshot-${Date.now()}.png` */
  function ScreenshotPath(now: nat): string {
    "screenshots/screenshot-" + NatToString(now) + ".png"
  }

  /** The webhook request `sendToDiscord("M", filename)` makes for the screenshot taken at `now`. */
  function CaptureRequest(webhookUrl: string, now: nat, today: Discord.Date): Discord.Request {
    Discord.Request(webhookUrl, Discord.DiscordForm("M", Discord.PathArg(ScreenshotPath(now)), today))
  }

  /**
   * Whether a step throws. The send step never does: `sendToDiscord`
   * catches every error itself, so its membership in `failing` is ignored.
   */
  predicate Throws(s: Step, failing: set<Step>) {
    s in failing && s != Dispatch
  }

  /** The steps of the `try` block, in program order. */
  const TrySteps: seq<Step> := [SetViewport, Goto, WaitImages, WaitForSelector, Screenshot, Dispatch]

  /** The steps of a block that runs in order and stops at the first step that throws (which has run). */
  function RunUntilThrow(steps: seq<Step>, failing: set<Step>): seq<Step> {
    if steps == [] then []
    else if Throws(steps[0], failing) then [steps[0]]
    else [steps[0]] + RunUntilThrow(steps[1..], failing)
  }

  /** Every step of a complete, failure-free run, in order. */
  const FullRun: seq<Step> := [Launch, NewPage] + TrySteps + [Close]

  /**
   * The steps `capture` runs: launch and page creation sit outside the
   * `try`, so a failure of either ends the run at once; otherwise the
   * `try` block runs until a step throws and `finally` closes the browser.
   */
  function CaptureTrace(failing: set<Step>): seq<Step> {
    if Launch in failing then [Launch]
    else if NewPage in failing then [Launch, NewPage]
    else [Launch, NewPage] + RunUntilThrow(TrySteps, failing) + [Close]
  }

  /**
   * How `capture()` settles: a failure before the `try` rejects; a failure
   * inside it is caught and logged; a failing close in `finally` rejects.
   */
  function CaptureCompletion(failing: set<Step>): Completion {
    if Launch in failing then Rejected(Launch)
    else if NewPage in failing then Rejected(NewPage)
    else if Close in failing then Rejected(Close)
    else Resolved
  }

  /**
   * A block that stops at its first throw runs a prefix of its steps; all
   * but the last step run succeeded; when it stops early, the last step run
   * threw; and it runs everything exactly when no step but the last throws.
   */
  lemma {:induction false} RunUntilThrowIsPrefix(steps: seq<Step>, failing: set<Step>)
    ensures var r := RunUntilThrow(steps, failing);
      && |r| <= |steps|
      && r == steps[..|r|]
      && (forall i :: 0 <= i < |r| - 1 ==> !Throws(r[i], failing))
      && (|r| < |steps| ==> |r| > 0 && Throws(r[|r| - 1], failing))
      && (r == steps <==> forall i :: 0 <= i < |steps| - 1 ==> !Throws(steps[i], failing))
  {
    if steps != [] && !Throws(steps[0], failing) {
      var tail := RunUntilThrow(steps[1..], failing);
      RunUntilThrowIsPrefix(steps[1..], failing);
      var r := RunUntilThrow(steps, failing);
      assert r == [steps[0]] + tail;
      assert r == steps[..|r|];
      forall i | 0 <= i < |r| - 1 ensures !Throws(r[i], failing) {
        if i > 0 { assert r[i] == tail[i - 1]; }
      }
      if forall i :: 0 <= i < |steps| - 1 ==> !Throws(steps[i], failing) {
        forall i | 0 <= i < |steps[1..]| - 1 ensures !Throws(steps[1..][i], failing) {
          assert steps[1..][i] == steps[i + 1];
        }
      }
      if r == steps {
        forall i | 0 <= i < |steps| - 1 ensures !Throws(steps[i], failing) {
          if i > 0 { assert steps[i] == steps[1..][i - 1]; }
        }
      }
    }
  }

  /**
   * The browser is released exactly when it was obtained together with a
   * page: then `close` runs exactly once, as the very last step; when
   * `launch` or `newPage` throws it never runs.
   */
  lemma CloseRunsOnceAfterPage(failing: set<Step>)
    ensures var t := CaptureTrace(failing);
      && (Launch !in failing && NewPage !in failing ==>
            t[|t| - 1] == Close && Close !in t[..|t| - 1])
      && (Launch in failing || NewPage in failing ==> Close !in t)
  {
    TryBlockUnrolled(failing);
    var t := CaptureTrace(failing);
    if Launch !in failing && NewPage !in failing {
      assert t[..|t| - 1] == [Launch, NewPage] + RunUntilThrow(TrySteps, failing);
    }
  }

  /**
   * The steps run in program order: a run that closed the browser is a
   * prefix of the full run followed by `close`; one that did not is a
   * prefix of the full run.
   */
  lemma CaptureFollowsProgramOrder(failing: set<Step>)
    ensures var t := CaptureTrace(failing);
      && 1 <= |t| <= |FullRun|
      && (t[|t| - 1] == Close ==> t[..|t| - 1] == FullRun[..|t| - 1])
      && (t[|t| - 1] != Close ==> t == FullRun[..|t|])
  {
    var steps := TrySteps;
    RunUntilThrowIsPrefix(steps, failing);
    var r := RunUntilThrow(steps, failing);
    assert r == steps[..|r|];
    if Launch !in failing && NewPage !in failing {
      var t := CaptureTrace(failing);
      assert t == [Launch, NewPage] + r + [Close];
      assert t[..|t| - 1] == [Launch, NewPage] + r;
      assert FullRun[..|t| - 1] == [Launch, NewPage] + steps[..|r|];
    }
  }

  /**
   * The screenshot is sent exactly when every browser step before it
   * succeeded, and then it is the file that was just written.
   */
  lemma DispatchOnlyAfterScreenshot(failing: set<Step>)
    ensures Dispatch in CaptureTrace(failing) <==>
      Launch !in failing && NewPage !in failing &&
      forall i :: 0 <= i < 5 ==> !Throws(TrySteps[i], failing)
    ensures Dispatch in CaptureTrace(failing) ==>
      Screenshot in CaptureTrace(failing)
  {
    var t := CaptureTrace(failing);
    var tryOk :=
      !Throws(SetViewport, failing) && !Throws(Goto, failing) && !Throws(WaitImages, failing) &&
      !Throws(WaitForSelector, failing) && !Throws(Screenshot, failing);
    assert (forall i :: 0 <= i < 5 ==> !Throws(TrySteps[i], failing)) <==> tryOk by {
      assert TrySteps[0] == SetViewport && TrySteps[1] == Goto && TrySteps[2] == WaitImages;
      assert TrySteps[3] == WaitForSelector && TrySteps[4] == Screenshot;
    }
    assert Dispatch in t <==> Launch !in failing && NewPage !in failing && tryOk by {
      TryBlockUnrolled(failing);
    }
    assert Dispatch in t ==> Screenshot in t by {
      TryBlockUnrolled(failing);
    }
  }

  /**
   * A block whose steps before position k all succeed, and whose step k
   * throws or is the last one, runs exactly its first k + 1 steps.
   */
  lemma {:induction false} RunUntilThrowStopsAt(steps: seq<Step>, k: nat, failing: set<Step>)
    requires k < |steps|
    requires forall j :: 0 <= j < k ==> !Throws(steps[j], failing)
    requires Throws(steps[k], failing) || k == |steps| - 1
    ensures RunUntilThrow(steps, failing) == steps[..k + 1]
  {
    if k > 0 {
      RunUntilThrowStopsAt(steps[1..], k - 1, failing);
      assert steps[..k + 1] == [steps[0]] + steps[1..][..k];
    }
  }

  /** The run of the `try` block, written out step by step. */
  lemma TryBlockUnrolled(failing: set<Step>)
    ensures RunUntilThrow(TrySteps, failing) ==
      if Throws(SetViewport, failing) then [SetViewport]
      else if Throws(Goto, failing) then [SetViewport, Goto]
      else if Throws(WaitImages, failing) then [SetViewport, Goto, WaitImages]
      else if Throws(WaitForSelector, failing) then [SetViewport, Goto, WaitImages, WaitForSelector]
      else if Throws(Screenshot, failing) then [SetViewport, Goto, WaitImages, WaitForSelector, Screenshot]
      else TrySteps
  {
    var k :=
      if Throws(SetViewport, failing) then 0
      else if Throws(Goto, failing) then 1
      else if Throws(WaitImages, failing) then 2
      else if Throws(WaitForSelector, failing) then 3
      else if Throws(Screenshot, failing) then 4
      else 5;
    RunUntilThrowStopsAt(TrySteps, k, failing);
  }

  /**
   * Within the `try` block the screenshot is taken exactly when at least
   * five steps ran; it succeeds, and the result is sent, exactly when all
   * six did.
   */
  lemma TryBlockMilestones(failing: set<Step>)
    ensures var r := RunUntilThrow(TrySteps, failing);
      && (Screenshot in r <==> |r| >= 5)
      && (Dispatch in r <==> |r| == 6)
      && (Screenshot in r && Screenshot !in failing <==> |r| == 6)
  {
    TryBlockUnrolled(failing);
  }

  /**
   * The `try` block of `capture()`, once the browser and its page exist:
   * its steps in order until one throws, the file the screenshot step
   * wrote and the webhook request the send step made.
   */
  method RunTryBlock(failing: set<Step>, now: nat, today: Discord.Date, webhookUrl: string,
                     post: Discord.PostResult)
    returns (ran: seq<Step>, written: seq<string>, sent: seq<Discord.Request>)
    ensures ran == RunUntilThrow(TrySteps, failing)
    ensures written == if |ran| == 6 then [ScreenshotPath(now)] else []
    ensures sent == if |ran| == 6 then [CaptureRequest(webhookUrl, now, today)] else []
  {
    TryBlockUnrolled(failing);
    written, sent := [], [];
    ran := [SetViewport];
    if Throws(SetViewport, failing) {
      return;
    }
    ran := ran + [Goto];
    assert ran == [SetViewport, Goto];
    if Throws(Goto, failing) {
      return;
    }
    ran := ran + [WaitImages];
    assert ran == [SetViewport, Goto, WaitImages];
    if Throws(WaitImages, failing) {
      return;
    }
    ran := ran + [WaitForSelector];
    assert ran == [SetViewport, Goto, WaitImages, WaitForSelector];
    if Throws(WaitForSelector, failing) {
      return;
    }
    var filename := ScreenshotPath(now);
    ran := ran + [Screenshot];
    assert ran == [SetViewport, Goto, WaitImages, WaitForSelector, Screenshot];
    if Throws(Screenshot, failing) {
      return;
    }
    written := [filename];
    ran := ran + [Dispatch];
    assert ran == [SetViewport, Goto, WaitImages, WaitForSelector, Screenshot, Dispatch];
    var request, log := Discord.SendToDiscord("M", Discord.PathArg(filename), today, webhookUrl, post);
    sent := [request];
  }

  /**
   * `capture()`. Returns the steps run, how the returned promise settles,
   * the files the screenshot step wrote and the webhook requests made (the
   * caller, the change-event handler, discards the promise).
   */
  method RunCapture(failing: set<Step>, now: nat, today: Discord.Date, webhookUrl: string,
                    post: Discord.PostResult)
    returns (trace: seq<Step>, completion: Completion, written: seq<string>, sent: seq<Discord.Request>)
    ensures trace == CaptureTrace(failing)
    ensures completion == CaptureCompletion(failing)
    ensures written == if Screenshot in trace && Screenshot !in failing then [ScreenshotPath(now)] else []
    ensures sent == if Dispatch in trace then [CaptureRequest(webhookUrl, now, today)] else []
  {
    written, sent := [], [];
    trace := [Launch];
    if Launch in failing {
      completion := Rejected(Launch);
      return;
    }
    trace := trace + [NewPage];
    assert trace == [Launch, NewPage];
    if NewPage in failing {
      completion := Rejected(NewPage);
      return;
    }
    var ran;
    ran, written, sent := RunTryBlock(failing, now, today, webhookUrl, post);
    // finally
    trace := trace + ran + [Close];
    assert (Screenshot in trace && Screenshot !in failing <==> |ran| == 6) && (Dispatch in trace <==> |ran| == 6) by {
      TryBlockMilestones(failing);
      assert Screenshot in trace <==> Screenshot in ran;
      assert Dispatch in trace <==> Dispatch in ran;
    }
    completion := if Close in failing then Rejected(Close) else Resolved;
  }
}
