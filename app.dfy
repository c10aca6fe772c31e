/**
 * `GitGlowApp`: start-up, the choice between setup and normal operation,
 * shutdown, and the two polling loops with their fixed retry delays. The
 * collaborators (GitHub client, LED matrix controller, WiFi manager, web
 * applications and server) are not modelled; every request made of them
 * is recorded, in order, in the application's `effects`.
 */
module App {
  import opened Wrappers
  import opened PyText
  import opened ConfigAttrs
  import opened Settings

  /** What `web_app` holds: nothing, the captive portal, or the main web interface. */
  datatype WebApp = NoWebApp | SetupPortal | MainWebApp

  /** Which branch of `run` the application took. */
  datatype Mode = NotStarted | SetupMode | NormalMode

  /** `GitHubClient(token=..., rate_limit_strategy=...)`: the arguments it was built with. */
  datatype GitHubClient = GitHubClient(token: Value, rateLimitStrategy: Value)

  /** The contribution data the client returns; its content is not modelled. */
  datatype Contributions = Contributions(payload: Value)

  /** A pull request event the client returns; its content is not modelled. */
  datatype PrEvent = PrEvent(payload: Value)

  /** A request the application makes of a collaborator. */
  datatype Effect =
    | StartHotspot
    | Serve(app: WebApp, bind: string)
    | FetchContributions(username: Value, weeks: nat)
    | DisplayContributions(data: Contributions)
    | FetchPrEvents(repositories: Value)
    | ShowNotification(event: PrEvent)
    | Sleep(seconds: nat)
    | ClearDisplay
    | WifiCleanup

  /** The requests of one pass through a loop body, and whether it ended without an exception. */
  datatype Pass = Pass(calls: seq<Effect>, ok: bool)

  /**
   * What the collaborators do in one pass of the contribution loop:
   * `fetched` is `None` when `get_contributions` raises, `displayed` is
   * false when `display_contributions` raises, and `stop` says that a
   * shutdown ran before the loop's next check.
   */
  datatype ContributionRound = ContributionRound(fetched: Option<Contributions>, displayed: bool, stop: bool)

  /**
   * What the collaborators do in one pass of the pull request loop:
   * `fetched` is `None` when `get_pr_events` raises, `failsAt` is the index
   * of the event whose `show_notification` raises, if any.
   */
  datatype PullRequestRound = PullRequestRound(fetched: Option<seq<PrEvent>>, failsAt: Option<nat>, stop: bool)

  // The bind addresses of the two servers.
  const SetupBind := "0.0.0.0:80"

  function NormalBind(webPort: Value): string {
    "0.0.0.0:" + ToStr(webPort)
  }

  /**
   * The body of `_update_contribution_graph`'s `try`: fetch 32 weeks for the
   * configured user, then display them. A missing client or controller is
   * `None`, whose method lookup raises `AttributeError`.
   */
  function ContributionPass(client: Option<GitHubClient>, matrix: bool, username: Value, round: ContributionRound): Pass {
    if client.None? then Pass([], false)
    else
      var fetch := [FetchContributions(username, 32)];
      match round.fetched
      case None => Pass(fetch, false)
      case Some(data) =>
        if !matrix then Pass(fetch, false)
        else Pass(fetch + [DisplayContributions(data)], round.displayed)
  }

  /** The sleep after a contribution pass: 15 minutes after success, one minute after an exception. */
  function ContributionDelay(ok: bool): nat {
    if ok then 15 * 60 else 60
  }

  /** The requests of one iteration of the contribution loop. */
  function ContributionRoundEffects(client: Option<GitHubClient>, matrix: bool, username: Value, round: ContributionRound): seq<Effect> {
    var p := ContributionPass(client, matrix, username, round);
    p.calls + [Sleep(ContributionDelay(p.ok))]
  }

  /**
   * A contribution pass succeeds exactly when a client fetched the data and
   * a controller displayed it; with a client the fetch is always the first
   * request, and the data fetched is what is displayed.
   */
  lemma ContributionPassOutcome(client: Option<GitHubClient>, matrix: bool, username: Value, round: ContributionRound)
    ensures var p := ContributionPass(client, matrix, username, round);
      && (p.ok <==> client.Some? && round.fetched.Some? && matrix && round.displayed)
      && (client.None? ==> p.calls == [])
      && (client.Some? ==> |p.calls| > 0 && p.calls[0] == FetchContributions(username, 32))
      && (client.Some? && round.fetched.Some? && matrix ==>
            p.calls == [FetchContributions(username, 32), DisplayContributions(round.fetched.value)])
      && (!(client.Some? && round.fetched.Some? && matrix) ==> forall e <- p.calls :: !e.DisplayContributions?)
  {
  }

  /**
   * Each contribution round ends in one sleep: 15 minutes when the data was
   * fetched and displayed, one minute otherwise.
   */
  lemma ContributionRoundDelay(client: Option<GitHubClient>, matrix: bool, username: Value, round: ContributionRound)
    ensures var e := ContributionRoundEffects(client, matrix, username, round);
      && |e| > 0
      && (e[|e| - 1] == Sleep(900) <==> client.Some? && round.fetched.Some? && matrix && round.displayed)
      && (e[|e| - 1] == Sleep(60) <==> !(client.Some? && round.fetched.Some? && matrix && round.displayed))
      && forall i :: 0 <= i < |e| - 1 ==> !e[i].Sleep?
  {
    ContributionPassOutcome(client, matrix, username, round);
  }

  /** The first `n` events' notifications, in order. */
  function Shown(events: seq<PrEvent>, n: nat): (calls: seq<Effect>)
    requires n <= |events|
    ensures |calls| == n && forall i :: 0 <= i < n ==> calls[i] == ShowNotification(events[i])
  {
    if n == 0 then [] else Shown(events, n - 1) + [ShowNotification(events[n - 1])]
  }

  /**
   * The `for event in pr_events` loop: each event is shown in turn until
   * one raises; without a controller the first event raises, and an empty
   * list raises nothing.
   */
  function NotificationsShown(events: seq<PrEvent>, matrix: bool, failsAt: Option<nat>): Pass {
    if events == [] then Pass([], true)
    else if !matrix then Pass([], false)
    else
      var n := if failsAt.Some? && failsAt.value < |events| then failsAt.value + 1 else |events|;
      Pass(Shown(events, n), n == |events| && (failsAt.None? || failsAt.value >= |events|))
  }

  /**
   * The notifications go out in the order of the events: all of them when
   * no call raises, and those up to and including the failing one when one
   * does.
   */
  lemma NotificationsInOrder(events: seq<PrEvent>, matrix: bool, failsAt: Option<nat>)
    ensures var p := NotificationsShown(events, matrix, failsAt);
      && (p.ok <==> events == [] || (matrix && (failsAt.None? || failsAt.value >= |events|)))
      && (p.ok ==> |p.calls| == |events| && forall i :: 0 <= i < |events| ==> p.calls[i] == ShowNotification(events[i]))
      && (!p.ok && matrix ==> && failsAt.Some? && |p.calls| == failsAt.value + 1 <= |events|
                              && forall i :: 0 <= i < |p.calls| ==> p.calls[i] == ShowNotification(events[i]))
      && (!matrix ==> p.calls == [])
  {
  }

  /**
   * The body of `_monitor_pull_requests`'s `try`: fetch the events of the
   * configured repositories, then show each of them.
   */
  function PullRequestPass(client: Option<GitHubClient>, matrix: bool, repositories: Value, round: PullRequestRound): Pass {
    if client.None? then Pass([], false)
    else
      var fetch := [FetchPrEvents(repositories)];
      match round.fetched
      case None => Pass(fetch, false)
      case Some(events) =>
        var shown := NotificationsShown(events, matrix, round.failsAt);
        Pass(fetch + shown.calls, shown.ok)
  }

  /** The sleep after a pull request pass: two minutes after success, one minute after an exception. */
  function PullRequestDelay(ok: bool): nat {
    if ok then 2 * 60 else 60
  }

  /** The requests of one iteration of the pull request loop. */
  function PullRequestRoundEffects(client: Option<GitHubClient>, matrix: bool, repositories: Value, round: PullRequestRound): seq<Effect> {
    var p := PullRequestPass(client, matrix, repositories, round);
    p.calls + [Sleep(PullRequestDelay(p.ok))]
  }

  /**
   * A pull request pass fetches first and then shows the events fetched, in
   * order; it succeeds exactly when the fetch and every notification did.
   */
  lemma PullRequestPassOutcome(client: Option<GitHubClient>, matrix: bool, repositories: Value, round: PullRequestRound)
    ensures var p := PullRequestPass(client, matrix, repositories, round);
      && (p.ok <==> client.Some? && round.fetched.Some? && NotificationsShown(round.fetched.value, matrix, round.failsAt).ok)
      && (client.None? ==> p.calls == [])
      && (client.Some? ==> |p.calls| > 0 && p.calls[0] == FetchPrEvents(repositories))
      && (client.Some? && round.fetched.Some? ==>
            p.calls[1..] == NotificationsShown(round.fetched.value, matrix, round.failsAt).calls)
  {
  }

  /**
   * Each pull request round ends in one sleep: two minutes when the events
   * were fetched and all shown, one minute otherwise.
   */
  lemma PullRequestRoundDelay(client: Option<GitHubClient>, matrix: bool, repositories: Value, round: PullRequestRound)
    ensures var e := PullRequestRoundEffects(client, matrix, repositories, round);
      var ok := client.Some? && round.fetched.Some? && NotificationsShown(round.fetched.value, matrix, round.failsAt).ok;
      && |e| > 0
      && (e[|e| - 1] == Sleep(120) <==> ok)
      && (e[|e| - 1] == Sleep(60) <==> !ok)
      && forall i :: 0 <= i < |e| - 1 ==> !e[i].Sleep?
  {
    PullRequestPassOutcome(client, matrix, repositories, round);
    if client.Some? && round.fetched.Some? {
      NotificationsInOrder(round.fetched.value, matrix, round.failsAt);
    }
  }

  /** The requests `shutdown` makes: clear the display and clean up WiFi, each if present. */
  function ShutdownEffects(matrix: bool, wifi: bool): (e: seq<Effect>)
    ensures ClearDisplay in e <==> matrix
    ensures WifiCleanup in e <==> wifi
  {
    (if matrix then [ClearDisplay] else []) + (if wifi then [WifiCleanup] else [])
  }

  /**
   * Whether `self.running` still holds after the first `n` rounds of a
   * schedule, given whether a shutdown ran during each round.
   */
  function StillRunning(running: bool, stops: seq<bool>, n: nat): bool
    requires n <= |stops|
  {
    if n == 0 then running else StillRunning(running, stops, n - 1) && !stops[n - 1]
  }

  /** The loops keep running exactly while no shutdown has run. */
  lemma {:induction false} StillRunningIff(running: bool, stops: seq<bool>, n: nat)
    requires n <= |stops|
    ensures StillRunning(running, stops, n) <==> running && forall j :: 0 <= j < n ==> !stops[j]
  {
    if n > 0 {
      StillRunningIff(running, stops, n - 1);
    }
  }

  /**
   * The requests of `while self.running:` over the first `n` rounds of a
   * schedule, given each round's requests and whether a shutdown ran during
   * it: a round runs only while `running` still holds.
   */
  function RunLoop(traces: seq<seq<Effect>>, stops: seq<bool>, running: bool, n: nat): seq<Effect>
    requires n <= |traces| && |traces| == |stops|
  {
    if n == 0 then []
    else RunLoop(traces, stops, running, n - 1) + if StillRunning(running, stops, n - 1) then traces[n - 1] else []
  }

  lemma AppendAssociative<T>(a: seq<T>, b: seq<T>, c: seq<T>)
    ensures a + b + c == a + (b + c)
  {
  }

  /** A round run while `running` holds extends the requests of the rounds before it. */
  lemma RunLoopExtends(before: seq<Effect>, mid: seq<Effect>, after: seq<Effect>,
                       traces: seq<seq<Effect>>, stops: seq<bool>, running: bool, i: nat)
    requires i < |traces| && |traces| == |stops| && StillRunning(running, stops, i)
    requires mid == before + RunLoop(traces, stops, running, i)
    requires after == mid + traces[i]
    ensures after == before + RunLoop(traces, stops, running, i + 1)
  {
    AppendAssociative(before, RunLoop(traces, stops, running, i), traces[i]);
  }

  /** Once a shutdown has run, the loop makes no further requests, however many rounds remain. */
  lemma {:induction false} RunLoopEnds(traces: seq<seq<Effect>>, stops: seq<bool>, running: bool, i: nat, n: nat)
    requires i <= n <= |traces| && |traces| == |stops| && !StillRunning(running, stops, i)
    ensures !StillRunning(running, stops, n)
    ensures RunLoop(traces, stops, running, n) == RunLoop(traces, stops, running, i)
  {
    if n > i {
      RunLoopEnds(traces, stops, running, i, n - 1);
      var before := RunLoop(traces, stops, running, n - 1);
      assert before + [] == before;
    }
  }

  /**
   * A loop that runs its first `k` rounds, without a shutdown during any,
   * makes exactly their requests, one round after another.
   */
  lemma {:induction false} RunLoopRuns(traces: seq<seq<Effect>>, stops: seq<bool>, running: bool, k: nat)
    requires k <= |traces| && |traces| == |stops| && running
    requires forall j :: 0 <= j < k - 1 ==> !stops[j]
    ensures RunLoop(traces, stops, running, k) == Concat(traces[..k])
  {
    if k > 0 {
      RunLoopRuns(traces, stops, running, k - 1);
      StillRunningIff(running, stops, k - 1);
      assert traces[..k] == traces[..k - 1] + [traces[k - 1]];
      ConcatAppend(traces[..k - 1], traces[k - 1]);
    }
  }

  /** The concatenation of a sequence of request sequences. */
  function Concat(parts: seq<seq<Effect>>): seq<Effect> {
    if parts == [] then [] else Concat(parts[..|parts| - 1]) + parts[|parts| - 1]
  }

  lemma ConcatAppend(parts: seq<seq<Effect>>, last: seq<Effect>)
    ensures Concat(parts + [last]) == Concat(parts) + last
  {
    assert (parts + [last])[..|parts|] == parts;
  }

  /**
   * The loop never runs when it starts stopped, and after the first round
   * with a shutdown it runs no more: its requests are those of the rounds
   * up to and including that one.
   */
  lemma LoopStopsAfterShutdown(traces: seq<seq<Effect>>, stops: seq<bool>, running: bool, k: nat)
    requires k < |traces| && |traces| == |stops| && stops[k]
    ensures RunLoop(traces, stops, false, |traces|) == []
    ensures RunLoop(traces, stops, running, |traces|) == RunLoop(traces, stops, running, k + 1)
  {
    NotRunningRunsNothing(traces, stops, |traces|);
    assert !StillRunning(running, stops, k + 1);
    RunLoopEnds(traces, stops, running, k + 1, |traces|);
  }

  lemma {:induction false} NotRunningRunsNothing(traces: seq<seq<Effect>>, stops: seq<bool>, n: nat)
    requires n <= |traces| && |traces| == |stops|
    ensures RunLoop(traces, stops, false, n) == []
  {
    if n > 0 {
      NotRunningRunsNothing(traces, stops, n - 1);
      StillRunningIff(false, stops, n - 1);
    }
  }

  /** Whether a shutdown ran during each round of a schedule. */
  function ContributionStops(rounds: seq<ContributionRound>): (stops: seq<bool>)
    ensures |stops| == |rounds|
  {
    if rounds == [] then [] else [rounds[0].stop] + ContributionStops(rounds[1..])
  }

  lemma {:induction false} ContributionStopsAt(rounds: seq<ContributionRound>, i: nat)
    requires i < |rounds|
    ensures ContributionStops(rounds)[i] == rounds[i].stop
  {
    if i > 0 {
      ContributionStopsAt(rounds[1..], i - 1);
    }
  }

  /** Whether a shutdown ran during each round of a schedule. */
  function PullRequestStops(rounds: seq<PullRequestRound>): (stops: seq<bool>)
    ensures |stops| == |rounds|
  {
    if rounds == [] then [] else [rounds[0].stop] + PullRequestStops(rounds[1..])
  }

  lemma {:induction false} PullRequestStopsAt(rounds: seq<PullRequestRound>, i: nat)
    requires i < |rounds|
    ensures PullRequestStops(rounds)[i] == rounds[i].stop
  {
    if i > 0 {
      PullRequestStopsAt(rounds[1..], i - 1);
    }
  }

  /** One iteration of the contribution loop, followed by a shutdown's requests when one ran during it. */
  function ContributionRoundTrace(client: Option<GitHubClient>, matrix: bool, wifi: bool, username: Value, round: ContributionRound): seq<Effect> {
    ContributionRoundEffects(client, matrix, username, round) + (if round.stop then ShutdownEffects(matrix, wifi) else [])
  }

  /** Each round's `ContributionRoundTrace`, as if every round ran. */
  function ContributionTraces(client: Option<GitHubClient>, matrix: bool, wifi: bool, username: Value, rounds: seq<ContributionRound>): (traces: seq<seq<Effect>>)
    ensures |traces| == |rounds|
  {
    if rounds == [] then []
    else [ContributionRoundTrace(client, matrix, wifi, username, rounds[0])] + ContributionTraces(client, matrix, wifi, username, rounds[1..])
  }

  lemma {:induction false} ContributionTracesAt(client: Option<GitHubClient>, matrix: bool, wifi: bool, username: Value,
                                                rounds: seq<ContributionRound>, i: nat)
    requires i < |rounds|
    ensures ContributionTraces(client, matrix, wifi, username, rounds)[i] == ContributionRoundTrace(client, matrix, wifi, username, rounds[i])
  {
    if i > 0 {
      ContributionTracesAt(client, matrix, wifi, username, rounds[1..], i - 1);
    }
  }

  /** The requests of `_update_contribution_graph` over a whole schedule. */
  function ContributionLoop(client: Option<GitHubClient>, matrix: bool, wifi: bool, username: Value,
                            running: bool, rounds: seq<ContributionRound>): seq<Effect> {
    RunLoop(ContributionTraces(client, matrix, wifi, username, rounds), ContributionStops(rounds), running, |rounds|)
  }

  /** One iteration of the pull request loop, followed by a shutdown's requests when one ran during it. */
  function PullRequestRoundTrace(client: Option<GitHubClient>, matrix: bool, wifi: bool, repositories: Value, round: PullRequestRound): seq<Effect> {
    PullRequestRoundEffects(client, matrix, repositories, round) + (if round.stop then ShutdownEffects(matrix, wifi) else [])
  }

  /** Each round's `PullRequestRoundTrace`, as if every round ran. */
  function PullRequestTraces(client: Option<GitHubClient>, matrix: bool, wifi: bool, repositories: Value, rounds: seq<PullRequestRound>): (traces: seq<seq<Effect>>)
    ensures |traces| == |rounds|
  {
    if rounds == [] then []
    else [PullRequestRoundTrace(client, matrix, wifi, repositories, rounds[0])] + PullRequestTraces(client, matrix, wifi, repositories, rounds[1..])
  }

  lemma {:induction false} PullRequestTracesAt(client: Option<GitHubClient>, matrix: bool, wifi: bool, repositories: Value,
                                               rounds: seq<PullRequestRound>, i: nat)
    requires i < |rounds|
    ensures PullRequestTraces(client, matrix, wifi, repositories, rounds)[i] == PullRequestRoundTrace(client, matrix, wifi, repositories, rounds[i])
  {
    if i > 0 {
      PullRequestTracesAt(client, matrix, wifi, repositories, rounds[1..], i - 1);
    }
  }

  /** The requests of `_monitor_pull_requests` over a whole schedule. */
  function PullRequestLoop(client: Option<GitHubClient>, matrix: bool, wifi: bool, repositories: Value,
                           running: bool, rounds: seq<PullRequestRound>): seq<Effect> {
    RunLoop(PullRequestTraces(client, matrix, wifi, repositories, rounds), PullRequestStops(rounds), running, |rounds|)
  }

  /** The components an application holds and the branch `run` took. */
  datatype Components = Components(
    config: GitGlowConfig, githubClient: Option<GitHubClient>, hasMatrixController: bool,
    hasWifiManager: bool, webApp: WebApp, mode: Mode)

  class GitGlowApp {
    var config: GitGlowConfig
    var githubClient: Option<GitHubClient>
    var hasMatrixController: bool
    var hasWifiManager: bool
    var webApp: WebApp
    var running: bool
    var mode: Mode
    /** The requests made of the collaborators so far, in order. */
    var effects: seq<Effect>

    ghost predicate Valid()
      reads this, config
    {
      config.Valid()
    }

    /** Everything but `running` and `effects`, which the loops and `shutdown` leave alone. */
    ghost function Held(): Components
      reads this
    {
      Components(config, githubClient, hasMatrixController, hasWifiManager, webApp, mode)
    }

    /**
     * `GitGlowApp(config_path)`, with the configuration built as
     * `GitGlowConfig(config_file=config_path)`: nothing created yet, not
     * running.
     */
    constructor (configPath: Option<string>, home: string, disk: Disk)
      ensures Valid() && fresh(config)
      ensures config.attrs == AppConfig(configPath, home, disk.files)
      ensures githubClient.None? && !hasMatrixController && !hasWifiManager
      ensures webApp == NoWebApp && !running && mode == NotStarted && effects == []
    {
      config := new GitGlowConfig(PyNone, PathArg(configPath), home, disk);
      githubClient := None;
      hasMatrixController := false;
      hasWifiManager := false;
      webApp := NoWebApp;
      running := false;
      mode := NotStarted;
      effects := [];
    }

    /**
     * `initialize()`: the WiFi manager always; then either the hotspot and
     * the captive portal (configuration incomplete, returning early) or the
     * GitHub client, the matrix controller and the main web interface.
     */
    method Initialize()
      requires Valid()
      modifies this
      ensures Valid() && config == old(config) && running == old(running) && mode == old(mode)
      ensures hasWifiManager
      ensures !config.IsConfigured() ==> && githubClient == old(githubClient)
                                         && hasMatrixController == old(hasMatrixController)
                                         && webApp == SetupPortal
                                         && effects == old(effects) + [StartHotspot]
      ensures config.IsConfigured() ==> && githubClient == Some(GitHubClient(config.attrs[GithubToken], config.attrs[RateLimitStrategy]))
                                        && hasMatrixController
                                        && webApp == MainWebApp
                                        && effects == old(effects)
    {
      hasWifiManager := true;
      if !config.IsConfigured() {
        effects := effects + [StartHotspot];
        webApp := SetupPortal;
        return;
      }
      githubClient := Some(GitHubClient(config.attrs[GithubToken], config.attrs[RateLimitStrategy]));
      hasMatrixController := true;
      webApp := MainWebApp;
    }

    /**
     * `run()` up to the point where it awaits its servers and tasks:
     * initialise, then set `running` and serve the captive portal on port 80
     * (configuration incomplete) or the main interface on `web_port`.
     */
    method Run()
      requires Valid()
      modifies this
      ensures Valid() && config == old(config) && running && hasWifiManager
      ensures mode == SetupMode <==> !config.IsConfigured()
      ensures mode == NormalMode <==> config.IsConfigured()
      ensures mode == SetupMode ==> && webApp == SetupPortal && githubClient == old(githubClient)
                                    && hasMatrixController == old(hasMatrixController)
                                    && effects == old(effects) + [StartHotspot, Serve(SetupPortal, SetupBind)]
      ensures mode == NormalMode ==> && webApp == MainWebApp && hasMatrixController
                                     && githubClient == Some(GitHubClient(config.attrs[GithubToken], config.attrs[RateLimitStrategy]))
                                     && effects == old(effects) + [Serve(MainWebApp, NormalBind(config.attrs[WebPort]))]
    {
      Initialize();
      if !config.IsConfigured() {
        mode := SetupMode;
        running := true;
        effects := effects + [Serve(webApp, SetupBind)];
      } else {
        mode := NormalMode;
        running := true;
        effects := effects + [Serve(webApp, NormalBind(config.attrs[WebPort]))];
      }
    }

    /** `shutdown()`: `running` cleared, then the display cleared and WiFi cleaned up if present. */
    method Shutdown()
      modifies this
      ensures !running && Held() == old(Held())
      ensures effects == old(effects) + ShutdownEffects(hasMatrixController, hasWifiManager)
    {
      running := false;
      if hasMatrixController {
        effects := effects + [ClearDisplay];
      }
      if hasWifiManager {
        effects := effects + [WifiCleanup];
      }
    }

    /** One iteration of the contribution loop, and the shutdown that ran during it, if any. */
    method RunContributionRound(round: ContributionRound)
      requires Valid()
      modifies this
      ensures Valid() && Held() == old(Held())
      ensures running == (old(running) && !round.stop)
      ensures effects == old(effects) + ContributionRoundTrace(githubClient, hasMatrixController, hasWifiManager, config.attrs[GithubUsername], round)
    {
      ghost var pass := ContributionPass(githubClient, hasMatrixController, config.attrs[GithubUsername], round);
      var ok := false;
      if githubClient.Some? {
        effects := effects + [FetchContributions(config.attrs[GithubUsername], 32)];
        if round.fetched.Some? && hasMatrixController {
          effects := effects + [DisplayContributions(round.fetched.value)];
          ok := round.displayed;
        }
      }
      assert effects == old(effects) + pass.calls && ok == pass.ok;
      effects := effects + [Sleep(ContributionDelay(ok))];
      ghost var roundEffects := ContributionRoundEffects(githubClient, hasMatrixController, config.attrs[GithubUsername], round);
      assert effects == old(effects) + roundEffects;
      if round.stop {
        Shutdown();
        AppendAssociative(old(effects), roundEffects, ShutdownEffects(hasMatrixController, hasWifiManager));
      } else {
        assert roundEffects + [] == roundEffects;
      }
    }

    /** Round `i` of a schedule of the contribution loop. */
    method ContributionStep(rounds: seq<ContributionRound>, i: nat)
      requires Valid() && i < |rounds|
      modifies this
      ensures Valid() && Held() == old(Held())
      ensures running == (old(running) && !rounds[i].stop)
      ensures effects == old(effects) + ContributionTraces(githubClient, hasMatrixController, hasWifiManager, config.attrs[GithubUsername], rounds)[i]
    {
      RunContributionRound(rounds[i]);
      ContributionTracesAt(githubClient, hasMatrixController, hasWifiManager, config.attrs[GithubUsername], rounds, i);
    }

    /**
     * `_update_contribution_graph()` over a schedule of rounds: while
     * `running`, fetch and display, then sleep 15 minutes, or one minute
     * after an exception. A round marked `stop` had a shutdown run during
     * it, which ends the loop at its next check.
     */
    method UpdateContributionGraph(rounds: seq<ContributionRound>)
      requires Valid()
      modifies this
      ensures Valid() && Held() == old(Held())
      ensures running <==> old(running) && forall i :: 0 <= i < |rounds| ==> !rounds[i].stop
      ensures effects == old(effects) + ContributionLoop(githubClient, hasMatrixController, hasWifiManager,
        config.attrs[GithubUsername], old(running), rounds)
    {
      ghost var traces := ContributionTraces(githubClient, hasMatrixController, hasWifiManager, config.attrs[GithubUsername], rounds);
      ghost var stops := ContributionStops(rounds);
      var i: nat := 0;
      while running && i < |rounds|
        invariant i <= |rounds|
        invariant Valid() && Held() == old(Held()) && config.attrs[GithubUsername] == old(config.attrs[GithubUsername])
        invariant running == StillRunning(old(running), stops, i)
        invariant effects == old(effects) + RunLoop(traces, stops, old(running), i)
      {
        ghost var mid := effects;
        ContributionStep(rounds, i);
        ContributionStopsAt(rounds, i);
        RunLoopExtends(old(effects), mid, effects, traces, stops, old(running), i);
        i := i + 1;
      }
      if i < |rounds| {
        RunLoopEnds(traces, stops, old(running), i, |rounds|);
      }
      StillRunningIff(old(running), stops, |rounds|);
      forall j | 0 <= j < |rounds| ensures stops[j] == rounds[j].stop {
        ContributionStopsAt(rounds, j);
      }
    }

    /** One iteration of the pull request loop, and the shutdown that ran during it, if any. */
    method RunPullRequestRound(round: PullRequestRound)
      requires Valid()
      modifies this
      ensures Valid() && Held() == old(Held())
      ensures running == (old(running) && !round.stop)
      ensures effects == old(effects) + PullRequestRoundTrace(githubClient, hasMatrixController, hasWifiManager, config.attrs[MonitoredRepositories], round)
    {
      ghost var pass := PullRequestPass(githubClient, hasMatrixController, config.attrs[MonitoredRepositories], round);
      var ok := false;
      if githubClient.Some? {
        effects := effects + [FetchPrEvents(config.attrs[MonitoredRepositories])];
        if round.fetched.Some? {
          var shown;
          shown, ok := ShowNotifications(round.fetched.value, hasMatrixController, round.failsAt);
          effects := effects + shown;
        }
      }
      assert effects == old(effects) + pass.calls && ok == pass.ok;
      effects := effects + [Sleep(PullRequestDelay(ok))];
      ghost var roundEffects := PullRequestRoundEffects(githubClient, hasMatrixController, config.attrs[MonitoredRepositories], round);
      assert effects == old(effects) + roundEffects;
      if round.stop {
        Shutdown();
        AppendAssociative(old(effects), roundEffects, ShutdownEffects(hasMatrixController, hasWifiManager));
      } else {
        assert roundEffects + [] == roundEffects;
      }
    }

    /** Round `i` of a schedule of the pull request loop. */
    method PullRequestStep(rounds: seq<PullRequestRound>, i: nat)
      requires Valid() && i < |rounds|
      modifies this
      ensures Valid() && Held() == old(Held())
      ensures running == (old(running) && !rounds[i].stop)
      ensures effects == old(effects) + PullRequestTraces(githubClient, hasMatrixController, hasWifiManager, config.attrs[MonitoredRepositories], rounds)[i]
    {
      RunPullRequestRound(rounds[i]);
      PullRequestTracesAt(githubClient, hasMatrixController, hasWifiManager, config.attrs[MonitoredRepositories], rounds, i);
    }

    /**
     * `_monitor_pull_requests()` over a schedule of rounds: while `running`,
     * fetch the events and show each in turn, then sleep two minutes, or one
     * minute after an exception.
     */
    method MonitorPullRequests(rounds: seq<PullRequestRound>)
      requires Valid()
      modifies this
      ensures Valid() && Held() == old(Held())
      ensures running <==> old(running) && forall i :: 0 <= i < |rounds| ==> !rounds[i].stop
      ensures effects == old(effects) + PullRequestLoop(githubClient, hasMatrixController, hasWifiManager,
        config.attrs[MonitoredRepositories], old(running), rounds)
    {
      ghost var traces := PullRequestTraces(githubClient, hasMatrixController, hasWifiManager, config.attrs[MonitoredRepositories], rounds);
      ghost var stops := PullRequestStops(rounds);
      var i: nat := 0;
      while running && i < |rounds|
        invariant i <= |rounds|
        invariant Valid() && Held() == old(Held()) && config.attrs[MonitoredRepositories] == old(config.attrs[MonitoredRepositories])
        invariant running == StillRunning(old(running), stops, i)
        invariant effects == old(effects) + RunLoop(traces, stops, old(running), i)
      {
        ghost var mid := effects;
        PullRequestStep(rounds, i);
        PullRequestStopsAt(rounds, i);
        RunLoopExtends(old(effects), mid, effects, traces, stops, old(running), i);
        i := i + 1;
      }
      if i < |rounds| {
        RunLoopEnds(traces, stops, old(running), i, |rounds|);
      }
      StillRunningIff(old(running), stops, |rounds|);
      forall j | 0 <= j < |rounds| ensures stops[j] == rounds[j].stop {
        PullRequestStopsAt(rounds, j);
      }
    }
  }

  /**
   * The `for event in pr_events` loop, as a loop: each event is shown in
   * turn until one raises.
   */
  method ShowNotifications(events: seq<PrEvent>, matrix: bool, failsAt: Option<nat>) returns (calls: seq<Effect>, ok: bool)
    ensures Pass(calls, ok) == NotificationsShown(events, matrix, failsAt)
  {
    calls := [];
    ok := true;
    var i := 0;
    while i < |events| && ok
      invariant 0 <= i <= |events|
      invariant ok ==> calls == Shown(events, i) && (failsAt.None? || failsAt.value >= i)
      invariant ok && i > 0 ==> matrix
      invariant !ok ==> Pass(calls, ok) == NotificationsShown(events, matrix, failsAt)
    {
      if !matrix {
        ok := false;
        calls := [];
      } else {
        calls := calls + [ShowNotification(events[i])];
        assert calls == Shown(events, i + 1);
        if failsAt == Some(i) {
          ok := false;
        }
      }
      i := i + 1;
    }
  }

  /**
   * `main()` after argument parsing: the application for `--config`, the
   * configuration cleared under `--setup`, then `run()`. When clearing
   * raises (a `config_file` that is not a path) the exception leaves `main`
   * before anything runs.
   */
  method Launch(configPath: Option<string>, setup: bool, home: string, disk: Disk) returns (app: GitGlowApp)
    modifies disk
    ensures fresh(app) && app.Valid() && fresh(app.config)
    ensures !setup ==> app.running && app.config.attrs == AppConfig(configPath, home, old(disk.files))
    ensures !setup ==> (app.mode == SetupMode <==> !IsConfigured(AppConfig(configPath, home, old(disk.files))))
    ensures setup ==> app.config.attrs == Cleared(AppConfig(configPath, home, old(disk.files)))
    ensures setup ==> (app.mode == SetupMode <==> app.config.attrs[ConfigFile].PyPath?)
    ensures setup ==> app.mode != NormalMode
  {
    app := new GitGlowApp(configPath, home, disk);
    if setup {
      var cleared := app.config.ClearConfiguration(disk);
      if !cleared {
        return;
      }
    }
    app.Run();
  }
}
