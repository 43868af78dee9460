/** The vision app: a producer loop that keeps a capture handle open with
    exponential backoff, runs each frame through the active plugin (falling
    back to the raw frame), and a per-viewer tick that frames the latest
    result as a multipart chunk. Plugin discovery and all-or-nothing loading
    live here too. Capture, sleeping and module loading are inputs: open and
    read outcomes are given as sequences, and every sleep, release and log
    call is recorded on the object instead of being performed. */
module App {
  import opened Common
  import opened Framing

  const BaseDelay: nat := 2
  const MaxDelay: nat := 30
  /** Pause after a failed read, in seconds. */
  const ReadFailureSeconds: real := 0.5
  /** Pause after every processed frame, in seconds. */
  const FrameSeconds: real := 0.01
  const ProcessedQuality: int := 80
  const DefaultModelName: string := "opencv"

  /** One `time.sleep` of the producer: a backoff wait of whole seconds, the
      pause after a failed read, or the pause after a processed frame. */
  datatype Sleep = Backoff(delay: nat) | ReadFailurePause | FramePause

  function Seconds(z: Sleep): real {
    match z
    case Backoff(d) => d as real
    case ReadFailurePause => ReadFailureSeconds
    case FramePause => FrameSeconds
  }

  /** The only pauses the producer takes: the two fixed ones and backoff waits within [2, 30]. */
  predicate ProducerSleep(z: Sleep) {
    z == ReadFailurePause || z == FramePause || (z.Backoff? && BaseDelay <= z.delay <= MaxDelay)
  }

  predicate ProducerSleeps(zs: seq<Sleep>) {
    forall i :: 0 <= i < |zs| ==> ProducerSleep(zs[i])
  }

  /** Appending producer pauses to a record whose part after `n` holds only
      producer pauses keeps that part so. */
  lemma ProducerSleepsAppend(n: nat, z: seq<Sleep>, b: seq<Sleep>)
    requires n <= |z| && ProducerSleeps(z[n..]) && ProducerSleeps(b)
    ensures ProducerSleeps((z + b)[n..])
  {
    assert (z + b)[n..] == z[n..] + b;
  }

  /** One call of `logs.log(source, message, level)`. */
  datatype LogCall = LogCall(source: string, message: string, level: string)

  /** The log calls the app makes, by kind; `Render` gives each one's exact
      source, message and level. */
  datatype LogEvent =
    | Connecting
    | WebcamOpened
    | FeedConnected
    | ConnectFailed(reason: string, delay: nat)
    | FrameReadFailed
    | PluginLine(model: string, line: string)
    | ProcessingError(error: string)
    | ModelNotFound(id: string)
    | ModelLoaded(id: string)
    | ModelLoadFailed(id: string, error: string)

  function Render(e: LogEvent): LogCall {
    match e
    case Connecting => LogCall("App", "Connecting to video source...", "INFO")
    case WebcamOpened => LogCall("App", "Opened laptop webcam", "SUCCESS")
    case FeedConnected => LogCall("App", "Connected to Drone Server Feed", "SUCCESS")
    case ConnectFailed(reason, d) =>
      LogCall("App", "Connection failed: " + reason + ". Retrying in " + NatToString(d) + "s...", "WARNING")
    case FrameReadFailed => LogCall("App", "Frame read failed. Reconnecting...", "WARNING")
    case PluginLine(model, line) => LogCall(model, line, "AI")
    case ProcessingError(error) => LogCall("App", "Model processing error: " + error, "ERROR")
    case ModelNotFound(id) => LogCall("App", "Model " + id + " not found", "ERROR")
    case ModelLoaded(id) => LogCall("App", "Loaded model: " + id, "SUCCESS")
    case ModelLoadFailed(id, error) => LogCall("App", "Failed to load model " + id + ": " + error, "ERROR")
  }

  /** Plugin lines are the only calls at level "AI", and they carry the plugin's
      name as source; every other call comes from "App". */
  lemma RenderSources(e: LogEvent)
    ensures Render(e).level == "AI" <==> e.PluginLine?
    ensures e.PluginLine? ==> Render(e) == LogCall(e.model, e.line, "AI")
    ensures !e.PluginLine? ==> Render(e).source == "App"
  {
  }

  datatype Capture = Capture(id: nat)

  /** What one attempt to create a capture gives: an opened handle, a handle
      whose `isOpened()` is false, or an exception raised before any handle
      was assigned. */
  datatype OpenOutcome = Opened(cap: Capture) | NotOpened(cap: Capture) | OpenRaised(error: string)

  /** What one `read()` gives: a frame, or `ret` false. */
  datatype ReadOutcome = Read(frame: Frame) | ReadFailed

  /** What a plugin's `process_frame` call does: return a frame (possibly None)
      and log lines, or raise. */
  datatype PluginResult = Returned(frame: Option<Frame>, logs: seq<string>) | Raised(error: string)

  /** A loaded plugin module; `processFrame` is None when it has no `process_frame`. */
  datatype PluginModule = PluginModule(processFrame: Option<Frame -> PluginResult>)

  /** What executing a plugin's main.py gives. */
  datatype LoadResult = Loaded(plugin: PluginModule) | LoadRaised(error: string)

  /** A plugin's model.json: absent, parsed to a JSON object (values abstracted
      to strings), or not parseable (json.load raises). */
  datatype Manifest = NoManifest | Parsed(meta: map<string, string>) | Unparsable

  /** One entry of the models directory listing. */
  datatype ModelDir = ModelDir(name: string, isDir: bool, manifest: Manifest)

  // ---------------------------------------------------------------- backoff

  function NextDelay(d: nat): nat {
    Min(d * 2, MaxDelay)
  }

  /** The retry delay after `k` consecutive failed opens, starting from `d`. */
  function DelayAfter(d: nat, k: nat): nat
    decreases k
  {
    if k == 0 then d else NextDelay(DelayAfter(d, k - 1))
  }

  /** The sleeps taken, in order, during `k` consecutive failed opens from delay `d`. */
  function BackoffSleeps(d: nat, k: nat): seq<Sleep>
    decreases k
  {
    if k == 0 then [] else BackoffSleeps(d, k - 1) + [Backoff(DelayAfter(d, k - 1))]
  }

  function Pow2(k: nat): nat {
    if k == 0 then 1 else 2 * Pow2(k - 1)
  }

  /** Starting in [2, 30], the delay stays in [2, 30] however many opens fail. */
  lemma {:induction false} DelayAfterInRange(d: nat, k: nat)
    requires BaseDelay <= d <= MaxDelay
    ensures BaseDelay <= DelayAfter(d, k) <= MaxDelay
    decreases k
  {
    if k > 0 {
      DelayAfterInRange(d, k - 1);
    }
  }

  /** From the base delay, `k` failures give `min(2^(k+1), 30)`: 2, 4, 8, 16, 30, 30, ... */
  lemma {:induction false} DelayFromBase(k: nat)
    ensures DelayAfter(BaseDelay, k) == Min(Pow2(k + 1), MaxDelay)
    decreases k
  {
    if k > 0 {
      DelayFromBase(k - 1);
    }
  }

  /** The `i`-th backoff sleep is the delay after `i` failures, and each lies in [2, 30]. */
  lemma {:induction false} BackoffSleepsAt(d: nat, k: nat)
    requires BaseDelay <= d <= MaxDelay
    ensures |BackoffSleeps(d, k)| == k
    ensures forall i :: 0 <= i < k ==> BackoffSleeps(d, k)[i] == Backoff(DelayAfter(d, i))
    ensures forall i :: 0 <= i < k ==> BaseDelay as real <= Seconds(BackoffSleeps(d, k)[i]) <= MaxDelay as real
    ensures ProducerSleeps(BackoffSleeps(d, k))
    decreases k
  {
    if k > 0 {
      BackoffSleepsAt(d, k - 1);
      DelayAfterInRange(d, k - 1);
      forall i | 0 <= i < k - 1 {
        DelayAfterInRange(d, i);
      }
    }
  }

  /** Six failed opens in a row from the base delay sleep 2, 4, 8, 16, 30 and 30 seconds. */
  lemma BackoffScheduleFromBase()
    ensures BackoffSleeps(BaseDelay, 6) == [Backoff(2), Backoff(4), Backoff(8), Backoff(16), Backoff(30), Backoff(30)]
  {
  }

  // ------------------------------------------------------- connection logs

  function OpenFailureReason(o: OpenOutcome): string {
    match o
    case OpenRaised(e) => e
    case _ => "VideoCapture failed to open"
  }

  /** The log calls of one pass of the reconnect loop, made with delay `d`. */
  function AttemptLogs(standalone: bool, o: OpenOutcome, d: nat): seq<LogEvent> {
    match o
    case Opened(_) => if standalone then [Connecting, WebcamOpened, FeedConnected] else [Connecting, FeedConnected]
    case NotOpened(_) =>
      if standalone then [Connecting, WebcamOpened, ConnectFailed(OpenFailureReason(o), d)]
      else [Connecting, ConnectFailed(OpenFailureReason(o), d)]
    case OpenRaised(e) => [Connecting, ConnectFailed(e, d)]
  }

  /** The log calls of a run of failed attempts, the `i`-th made with the delay after `i` failures. */
  function FailedAttemptsLogs(standalone: bool, outs: seq<OpenOutcome>, d: nat): seq<LogEvent>
    decreases |outs|
  {
    if outs == [] then []
    else FailedAttemptsLogs(standalone, outs[..|outs| - 1], d)
         + AttemptLogs(standalone, outs[|outs| - 1], DelayAfter(d, |outs| - 1))
  }

  /** The handle a failed attempt releases, given the handle held before it. */
  function AttemptRelease(o: OpenOutcome, held: Option<Capture>): seq<Capture> {
    match o
    case NotOpened(c) => [c]
    case OpenRaised(_) => if held.Some? then [held.value] else []
    case Opened(_) => []
  }

  /** The handles released by a run of failed attempts begun with no handle held. */
  function FailedAttemptsReleases(outs: seq<OpenOutcome>): seq<Capture>
    decreases |outs|
  {
    if outs == [] then []
    else FailedAttemptsReleases(outs[..|outs| - 1]) + AttemptRelease(outs[|outs| - 1], None)
  }

  /** Only opens that produced a handle release one: raised attempts hold nothing. */
  lemma {:induction false} FailedReleasesAreNotOpened(outs: seq<OpenOutcome>)
    ensures forall c :: c in FailedAttemptsReleases(outs) <==> NotOpened(c) in outs
    decreases |outs|
  {
    if outs != [] {
      var init := outs[..|outs| - 1];
      FailedReleasesAreNotOpened(init);
      assert outs == init + [outs[|outs| - 1]];
    }
  }

  /** No outcome of the run produced an opened handle. */
  predicate NoneOpened(outs: seq<OpenOutcome>) {
    forall i :: 0 <= i < |outs| ==> !outs[i].Opened?
  }

  /** What the reconnect loop works on: the handle held, the retry delay, and
      the log calls, sleeps and releases made so far. */
  datatype Link = Link(capture: Option<Capture>, delay: nat, logged: seq<LogEvent>, sleeps: seq<Sleep>, released: seq<Capture>)

  /** One pass of the reconnect loop with outcome `o`. */
  function Attempt(s: Link, o: OpenOutcome, standalone: bool): Link {
    var logged := s.logged + AttemptLogs(standalone, o, s.delay);
    if o.Opened? then Link(Some(o.cap), BaseDelay, logged, s.sleeps, s.released)
    else Link(None, NextDelay(s.delay), logged, s.sleeps + [Backoff(s.delay)], s.released + AttemptRelease(o, s.capture))
  }

  /** The passes for a run of outcomes, in order. */
  function Attempts(s: Link, outs: seq<OpenOutcome>, standalone: bool): Link
    decreases |outs|
  {
    if outs == [] then s else Attempt(Attempts(s, outs[..|outs| - 1], standalone), outs[|outs| - 1], standalone)
  }

  /** A successful pass holds the new handle, resets the delay to 2, logs the
      connection and neither sleeps nor releases anything. */
  lemma AttemptConnects(s: Link, o: OpenOutcome, standalone: bool)
    requires o.Opened?
    ensures Attempt(s, o, standalone) == Link(Some(o.cap), BaseDelay, s.logged + AttemptLogs(standalone, o, s.delay), s.sleeps, s.released)
    ensures AttemptLogs(standalone, o, s.delay)[|AttemptLogs(standalone, o, s.delay)| - 1] == FeedConnected
  {
  }

  /** Dropping the last outcome of a run keeps none opened. */
  lemma NoneOpenedInit(outs: seq<OpenOutcome>)
    requires outs != [] && NoneOpened(outs)
    ensures NoneOpened(outs[..|outs| - 1]) && !outs[|outs| - 1].Opened?
  {
    var init := outs[..|outs| - 1];
    forall i | 0 <= i < |init| ensures !init[i].Opened? {
      assert init[i] == outs[i];
    }
  }

  /** A run of failed passes begun with no handle held ends with none held, the
      delay advanced once per failure, and one backoff sleep per failure at the
      delay then current. */
  lemma {:induction false} AttemptsFail(s: Link, outs: seq<OpenOutcome>, standalone: bool)
    requires s.capture.None? && NoneOpened(outs)
    ensures Attempts(s, outs, standalone).capture.None?
    ensures Attempts(s, outs, standalone).delay == DelayAfter(s.delay, |outs|)
    ensures Attempts(s, outs, standalone).sleeps == s.sleeps + BackoffSleeps(s.delay, |outs|)
    decreases |outs|
  {
    if outs != [] {
      var init := outs[..|outs| - 1];
      NoneOpenedInit(outs);
      AttemptsFail(s, init, standalone);
      var q := Attempts(s, outs, standalone);
      assert q.sleeps == (s.sleeps + BackoffSleeps(s.delay, |init|)) + [Backoff(DelayAfter(s.delay, |init|))];
    }
  }

  /** The same run logs what each failure logs, at the delay then current. */
  lemma {:induction false} AttemptsFailLogs(s: Link, outs: seq<OpenOutcome>, standalone: bool)
    requires s.capture.None? && NoneOpened(outs)
    ensures Attempts(s, outs, standalone).logged == s.logged + FailedAttemptsLogs(standalone, outs, s.delay)
    decreases |outs|
  {
    if outs != [] {
      var init := outs[..|outs| - 1];
      var o := outs[|outs| - 1];
      var p := Attempts(s, init, standalone);
      NoneOpenedInit(outs);
      calc {
        Attempts(s, outs, standalone).logged;
        p.logged + AttemptLogs(standalone, o, p.delay);
        { AttemptsFail(s, init, standalone); AttemptsFailLogs(s, init, standalone); }
        (s.logged + FailedAttemptsLogs(standalone, init, s.delay)) + AttemptLogs(standalone, o, DelayAfter(s.delay, |init|));
        s.logged + (FailedAttemptsLogs(standalone, init, s.delay) + AttemptLogs(standalone, o, DelayAfter(s.delay, |init|)));
      }
    }
  }

  /** The same run releases each handle that was obtained but would not read. */
  lemma {:induction false} AttemptsFailReleases(s: Link, outs: seq<OpenOutcome>, standalone: bool)
    requires s.capture.None? && NoneOpened(outs)
    ensures Attempts(s, outs, standalone).released == s.released + FailedAttemptsReleases(outs)
    decreases |outs|
  {
    if outs != [] {
      var init := outs[..|outs| - 1];
      NoneOpenedInit(outs);
      AttemptsFail(s, init, standalone);
      AttemptsFailReleases(s, init, standalone);
      assert Attempts(s, outs, standalone).released == (s.released + FailedAttemptsReleases(init)) + AttemptRelease(outs[|outs| - 1], None);
    }
  }

  /** One more outcome appended to a run. */
  lemma AttemptsSnoc(s: Link, tried: seq<OpenOutcome>, o: OpenOutcome, standalone: bool)
    ensures Attempts(s, tried + [o], standalone) == Attempt(Attempts(s, tried, standalone), o, standalone)
  {
    assert (tried + [o])[..|tried|] == tried;
  }

  // ---------------------------------------------------- per-frame publishing

  /** Plugin log lines as forwarded to the log sink: same order, tagged with the
      plugin's name and level "AI". */
  function Forward(name: string, lines: seq<string>): (r: seq<LogEvent>)
    ensures |r| == |lines|
    ensures forall i :: 0 <= i < |lines| ==> r[i] == PluginLine(name, lines[i])
    decreases |lines|
  {
    if lines == [] then [] else [PluginLine(name, lines[0])] + Forward(name, lines[1..])
  }

  /** Each forwarded line reaches the log sink as `log(name, line, "AI")`. */
  lemma ForwardRendered(name: string, lines: seq<string>)
    ensures forall i :: 0 <= i < |lines| ==> Render(Forward(name, lines)[i]) == LogCall(name, lines[i], "AI")
  {
  }

  /** What one successfully read frame leads to: the frame published and the log calls made. */
  datatype Publication = Publication(frame: Option<Frame>, calls: seq<LogEvent>)

  /** True when the active plugin is used for this frame and returns normally. */
  predicate PluginReturns(plugin: Option<PluginModule>, frame: Frame) {
    plugin.Some? && plugin.value.processFrame.Some? && plugin.value.processFrame.value(frame).Returned?
  }

  function Publish(plugin: Option<PluginModule>, name: string, frame: Frame): Publication {
    if plugin.Some? && plugin.value.processFrame.Some? then
      match plugin.value.processFrame.value(frame)
      case Returned(p, lines) => Publication(p, Forward(name, lines))
      case Raised(e) => Publication(Some(frame), [ProcessingError(e)])
    else
      Publication(Some(frame), [])
  }

  /** The published frame is the plugin's output exactly when the plugin exists,
      has `process_frame` and returns; otherwise it is the raw frame, and a
      raising plugin costs one error log and nothing else. */
  lemma PublishRule(plugin: Option<PluginModule>, name: string, frame: Frame)
    ensures PluginReturns(plugin, frame) ==>
      Publish(plugin, name, frame).frame == plugin.value.processFrame.value(frame).frame &&
      Publish(plugin, name, frame).calls == Forward(name, plugin.value.processFrame.value(frame).logs)
    ensures !PluginReturns(plugin, frame) ==> Publish(plugin, name, frame).frame == Some(frame)
    ensures !PluginReturns(plugin, frame) ==> |Publish(plugin, name, frame).calls| <= 1
  {
  }

  /** The frames of the results that succeeded, in order. */
  function FramesRead(results: seq<ReadOutcome>): seq<Frame>
    decreases |results|
  {
    if results == [] then []
    else FramesRead(results[..|results| - 1]) + (if results[|results| - 1].Read? then [results[|results| - 1].frame] else [])
  }

  /** The frames published for a run of results, one per successful read. */
  function PublishedFor(plugin: Option<PluginModule>, name: string, results: seq<ReadOutcome>): seq<Option<Frame>>
    decreases |results|
  {
    if results == [] then []
    else PublishedFor(plugin, name, results[..|results| - 1])
         + (if results[|results| - 1].Read? then [Publish(plugin, name, results[|results| - 1].frame).frame] else [])
  }

  lemma PublishedForSnoc(plugin: Option<PluginModule>, name: string, results: seq<ReadOutcome>, i: nat)
    requires i < |results|
    ensures PublishedFor(plugin, name, results[..i + 1]) ==
      PublishedFor(plugin, name, results[..i]) + (if results[i].Read? then [Publish(plugin, name, results[i].frame).frame] else [])
  {
    assert results[..i + 1][..i] == results[..i];
  }

  /** A plugin that raises on every frame does not stop publication: each
      successful read still publishes once, and what it publishes is the raw
      frame. The same holds with no plugin or one without `process_frame`. */
  lemma {:induction false} FailingPluginPassesThrough(plugin: Option<PluginModule>, name: string, results: seq<ReadOutcome>)
    requires forall k :: 0 <= k < |results| && results[k].Read? ==> !PluginReturns(plugin, results[k].frame)
    ensures |PublishedFor(plugin, name, results)| == |FramesRead(results)|
    ensures forall i :: 0 <= i < |FramesRead(results)| ==> PublishedFor(plugin, name, results)[i] == Some(FramesRead(results)[i])
    decreases |results|
  {
    if results != [] {
      FailingPluginPassesThrough(plugin, name, results[..|results| - 1]);
    }
  }

  // ------------------------------------------------------- the whole loop

  /** Everything `processing_loop` changes: the connection state, the latest
      processed frame, and every frame value published so far. */
  datatype Producer = Producer(link: Link, latest: Option<Frame>, published: seq<Option<Frame>>)

  /** One read on an open handle: a failure logs, releases the handle and
      pauses 0.5 s; a frame is published per the rule and followed by a 0.01 s pause. */
  function ReadPass(p: Producer, r: ReadOutcome, plugin: Option<PluginModule>, name: string): Producer
    requires p.link.capture.Some?
  {
    var l := p.link;
    match r
    case ReadFailed =>
      Producer(Link(None, l.delay, l.logged + [FrameReadFailed], l.sleeps + [ReadFailurePause], l.released + [l.capture.value]),
               p.latest, p.published)
    case Read(f) =>
      var q := Publish(plugin, name, f);
      Producer(Link(l.capture, l.delay, l.logged + q.calls, l.sleeps + [FramePause], l.released), q.frame, p.published + [q.frame])
  }

  /** The loop over the supplied outcomes: without a handle, the next open
      outcome is one pass of the reconnect loop; with one, the next read
      outcome is one read. It ends when the outcome it needs has run out. */
  function Run(p: Producer, opens: seq<OpenOutcome>, results: seq<ReadOutcome>,
               plugin: Option<PluginModule>, name: string, standalone: bool): Producer
    decreases |opens| + |results|
  {
    if p.link.capture.None? then
      if opens == [] then p
      else Run(p.(link := Attempt(p.link, opens[0], standalone)), opens[1..], results, plugin, name, standalone)
    else if results == [] then p
    else Run(ReadPass(p, results[0], plugin, name), opens, results[1..], plugin, name, standalone)
  }

  /** The delay is within [2, 30], and back at 2 whenever a handle is held. */
  predicate Steady(l: Link) {
    BaseDelay <= l.delay <= MaxDelay && (l.capture.Some? ==> l.delay == BaseDelay)
  }

  /** The whole loop keeps the delay steady. */
  lemma {:induction false} RunSteady(p: Producer, opens: seq<OpenOutcome>, results: seq<ReadOutcome>,
                                     plugin: Option<PluginModule>, name: string, standalone: bool)
    requires Steady(p.link)
    ensures Steady(Run(p, opens, results, plugin, name, standalone).link)
    decreases |opens| + |results|
  {
    if p.link.capture.None? {
      if opens != [] {
        RunSteady(p.(link := Attempt(p.link, opens[0], standalone)), opens[1..], results, plugin, name, standalone);
      }
    } else if results != [] {
      RunSteady(ReadPass(p, results[0], plugin, name), opens, results[1..], plugin, name, standalone);
    }
  }

  /** The whole loop only adds sleeps, each of them 0.5 s, 0.01 s or a backoff in [2, 30]. */
  lemma {:induction false} RunSleeps(p: Producer, opens: seq<OpenOutcome>, results: seq<ReadOutcome>,
                                     plugin: Option<PluginModule>, name: string, standalone: bool)
    requires Steady(p.link)
    ensures var z := Run(p, opens, results, plugin, name, standalone).link.sleeps;
      |p.link.sleeps| <= |z| && z[..|p.link.sleeps|] == p.link.sleeps && ProducerSleeps(z[|p.link.sleeps|..])
    decreases |opens| + |results|
  {
    if p.link.capture.None? {
      if opens != [] {
        var q := p.(link := Attempt(p.link, opens[0], standalone));
        RunSleeps(q, opens[1..], results, plugin, name, standalone);
        var added := if opens[0].Opened? then [] else [Backoff(p.link.delay)];
        assert q.link.sleeps == p.link.sleeps + added;
        ProducerSleepsChain(p.link.sleeps, added, Run(q, opens[1..], results, plugin, name, standalone).link.sleeps);
      } else {
        assert p.link.sleeps[|p.link.sleeps|..] == [];
      }
    } else if results != [] {
      var q := ReadPass(p, results[0], plugin, name);
      RunSleeps(q, opens, results[1..], plugin, name, standalone);
      var added := if results[0].Read? then [FramePause] else [ReadFailurePause];
      assert q.link.sleeps == p.link.sleeps + added;
      ProducerSleepsChain(p.link.sleeps, added, Run(q, opens, results[1..], plugin, name, standalone).link.sleeps);
    } else {
      assert p.link.sleeps[|p.link.sleeps|..] == [];
    }
  }

  /** Pauses added in two stages are pauses added once. */
  lemma ProducerSleepsChain(a: seq<Sleep>, added: seq<Sleep>, z: seq<Sleep>)
    requires ProducerSleeps(added)
    requires |a + added| <= |z| && z[..|a + added|] == a + added && ProducerSleeps(z[|a + added|..])
    ensures |a| <= |z| && z[..|a|] == a && ProducerSleeps(z[|a|..])
  {
    assert z[..|a|] == z[..|a + added|][..|a|];
    assert z[|a|..] == added + z[|a + added|..];
  }

  /** The whole loop only appends to the published frames, and the latest
      processed frame is the last one published, or the old one when none was. */
  lemma {:induction false} RunLatest(p: Producer, opens: seq<OpenOutcome>, results: seq<ReadOutcome>,
                                     plugin: Option<PluginModule>, name: string, standalone: bool)
    ensures var q := Run(p, opens, results, plugin, name, standalone);
      |p.published| <= |q.published| && q.published[..|p.published|] == p.published &&
      (|q.published| == |p.published| ==> q.latest == p.latest) &&
      (|q.published| > |p.published| ==> q.latest == q.published[|q.published| - 1])
    decreases |opens| + |results|
  {
    if p.link.capture.None? {
      if opens != [] {
        RunLatest(p.(link := Attempt(p.link, opens[0], standalone)), opens[1..], results, plugin, name, standalone);
      }
    } else if results != [] {
      var q := ReadPass(p, results[0], plugin, name);
      RunLatest(q, opens, results[1..], plugin, name, standalone);
      var z := Run(p, opens, results, plugin, name, standalone).published;
      assert z[..|p.published|] == z[..|q.published|][..|p.published|];
    }
  }

  /** A run of failed passes, then possibly a successful one, as the whole
      loop sees it: the loop goes on from where the reconnect cycle left off. */
  lemma {:induction false} RunAttempts(p: Producer, opens: seq<OpenOutcome>, results: seq<ReadOutcome>,
                                       plugin: Option<PluginModule>, name: string, standalone: bool, k: nat)
    requires p.link.capture.None? && k <= |opens| && NoneOpened(opens[..k])
    ensures Run(p, opens, results, plugin, name, standalone) ==
      Run(p.(link := Attempts(p.link, opens[..k], standalone)), opens[k..], results, plugin, name, standalone)
    decreases k
  {
    if k > 0 {
      var j := k - 1;
      assert opens[..k][..j] == opens[..j];
      NoneOpenedInit(opens[..k]);
      RunAttempts(p, opens, results, plugin, name, standalone, j);
      var p1 := p.(link := Attempts(p.link, opens[..j], standalone));
      AttemptsFail(p.link, opens[..j], standalone);
      assert opens[j..][1..] == opens[k..] && opens[j..][0] == opens[j];
      assert Run(p1, opens[j..], results, plugin, name, standalone) ==
        Run(p1.(link := Attempt(p1.link, opens[j], standalone)), opens[k..], results, plugin, name, standalone);
    } else {
      assert opens[..0] == [] && opens[0..] == opens;
    }
  }

  /** One read, as the whole loop sees it. */
  lemma RunRead(p: Producer, opens: seq<OpenOutcome>, results: seq<ReadOutcome>,
                plugin: Option<PluginModule>, name: string, standalone: bool)
    requires p.link.capture.Some? && results != []
    ensures Run(p, opens, results, plugin, name, standalone) ==
      Run(ReadPass(p, results[0], plugin, name), opens, results[1..], plugin, name, standalone)
  {
  }

  // ------------------------------------------------------------- discovery

  /** `get_models` over a listing: one manifest per subdirectory that has a
      model.json, its "id" set to the directory name; None when a manifest
      cannot be parsed (the exception propagates). */
  function Discovered(entries: seq<ModelDir>): Option<seq<map<string, string>>>
    decreases |entries|
  {
    if entries == [] then Some([])
    else
      var before := Discovered(entries[..|entries| - 1]);
      var e := entries[|entries| - 1];
      if before.None? then None
      else if !e.isDir || e.manifest.NoManifest? then before
      else if e.manifest.Unparsable? then None
      else Some(before.value + [e.manifest.meta["id" := e.name]])
  }

  /** Once a manifest fails to parse, the scan has failed whatever follows. */
  lemma {:induction false} DiscoveredPrefixNone(entries: seq<ModelDir>, i: nat)
    requires i <= |entries| && Discovered(entries[..i]).None?
    ensures Discovered(entries).None?
    decreases |entries| - i
  {
    if i < |entries| {
      assert entries[..i + 1][..i] == entries[..i];
      DiscoveredPrefixNone(entries, i + 1);
    } else {
      assert entries[..i] == entries;
    }
  }

  /** The subdirectories that carry a manifest, in listing order. */
  function ManifestDirs(entries: seq<ModelDir>): seq<ModelDir>
    decreases |entries|
  {
    if entries == [] then []
    else
      var e := entries[|entries| - 1];
      ManifestDirs(entries[..|entries| - 1]) + (if e.isDir && !e.manifest.NoManifest? then [e] else [])
  }

  /** Discovery fails exactly when some subdirectory's manifest cannot be parsed;
      otherwise it yields one entry per manifest directory, whose "id" is that
      directory's name and whose other keys come from its manifest. */
  lemma {:induction false} DiscoveredTagsIds(entries: seq<ModelDir>)
    ensures Discovered(entries).None? <==>
      exists k :: 0 <= k < |entries| && entries[k].isDir && entries[k].manifest.Unparsable?
    ensures Discovered(entries).Some? ==>
      var ms, ds := Discovered(entries).value, ManifestDirs(entries);
      |ms| == |ds| &&
      forall i :: 0 <= i < |ms| ==>
        ds[i].manifest.Parsed? && ms[i] == ds[i].manifest.meta["id" := ds[i].name] && ms[i]["id"] == ds[i].name
    decreases |entries|
  {
    if entries != [] {
      var init := entries[..|entries| - 1];
      DiscoveredTagsIds(init);
      var e := entries[|entries| - 1];
      if Discovered(init).None? {
        var k :| 0 <= k < |init| && init[k].isDir && init[k].manifest.Unparsable?;
        assert entries[k] == init[k];
      }
      if exists k :: 0 <= k < |entries| && entries[k].isDir && entries[k].manifest.Unparsable? {
        var k :| 0 <= k < |entries| && entries[k].isDir && entries[k].manifest.Unparsable?;
        if k < |init| {
          assert init[k] == entries[k];
        }
      } else {
        forall k | 0 <= k < |init|
          ensures !(init[k].isDir && init[k].manifest.Unparsable?)
        {
          assert init[k] == entries[k];
        }
      }
    }
  }

  // ---------------------------------------------------------- broadcasting

  /** The frame encoded while nothing has been published yet. */
  const Placeholder: Frame :=
    Frame(720, 1280, Blank, [Label("Waiting for video feed...", 200, 360, Color(100, 200, 255))])

  /** The JPEG one viewer tick encodes, if encoding succeeds: the latest
      processed frame at quality 80, or the placeholder at the default quality. */
  function TickJpeg(latest: Option<Frame>, encode: (Frame, Option<int>) -> Option<seq<byte>>): Option<seq<byte>> {
    if latest.Some? then encode(latest.value, Some(ProcessedQuality)) else encode(Placeholder, None)
  }

  class App {
    var videoCapture: Option<Capture>
    /** `processing_loop`'s local backoff delay, kept here so its steps can be stated one by one. */
    var retryDelay: nat
    var latestProcessedFrame: Option<Frame>
    var modelModule: Option<PluginModule>
    var currentModelName: string
    var standaloneMode: bool
    /** Every `logs.log` call made, in order. */
    var logged: seq<LogEvent>
    /** Every `time.sleep` made by the producer, in seconds, in order. */
    var sleeps: seq<Sleep>
    /** Every capture handle released, in order. */
    var released: seq<Capture>
    /** Every frame value written to `latestProcessedFrame`, in order. */
    ghost var published: seq<Option<Frame>>

    constructor (standalone: bool)
      ensures videoCapture == None && latestProcessedFrame == None && modelModule == None
      ensures currentModelName == DefaultModelName && standaloneMode == standalone
      ensures retryDelay == BaseDelay
      ensures logged == [] && sleeps == [] && released == [] && published == []
    {
      videoCapture, retryDelay, latestProcessedFrame, modelModule := None, BaseDelay, None, None;
      currentModelName, standaloneMode := DefaultModelName, standalone;
      logged, sleeps, released, published := [], [], [], [];
    }

    /** The fields the reconnect loop works on. */
    function LinkState(): Link
      reads this
    {
      Link(videoCapture, retryDelay, logged, sleeps, released)
    }

    /** The fields `processing_loop` changes. */
    ghost function ProducerState(): Producer
      reads this
    {
      Producer(LinkState(), latestProcessedFrame, published)
    }

    /** One pass of the reconnect loop. Success stores the handle and resets the
        delay; failure releases any handle, sleeps for the current delay, then
        doubles it up to the cap. */
    method ConnectAttempt(o: OpenOutcome) returns (connected: bool)
      modifies this`videoCapture, this`retryDelay, this`logged, this`sleeps, this`released
      ensures connected <==> o.Opened?
      ensures LinkState() == Attempt(old(LinkState()), o, standaloneMode)
    {
      logged := logged + [Connecting];
      if !o.OpenRaised? {
        videoCapture := Some(o.cap);
        if standaloneMode {
          logged := logged + [WebcamOpened];
        }
      }
      if o.Opened? {
        logged := logged + [FeedConnected];
        retryDelay := BaseDelay;
        connected := true;
      } else {
        if videoCapture.Some? {
          released := released + [videoCapture.value];
          videoCapture := None;
        }
        logged := logged + [ConnectFailed(OpenFailureReason(o), retryDelay)];
        sleeps := sleeps + [Backoff(retryDelay)];
        retryDelay := Min(retryDelay * 2, MaxDelay);
        connected := false;
      }
    }

    /** The inner `while running` loop: attempt the opens in `opens` in order
        until one succeeds; running out of outcomes stands for shutdown. The
        first `failed` attempts fail; when `connected`, the next one succeeded. */
    method ConnectCycle(opens: seq<OpenOutcome>) returns (failed: nat, connected: bool)
      modifies this`videoCapture, this`retryDelay, this`logged, this`sleeps, this`released
      ensures failed <= |opens| && NoneOpened(opens[..failed])
      ensures connected ==> failed < |opens| && opens[failed].Opened?
      ensures !connected ==> failed == |opens|
      ensures !connected ==> LinkState() == Attempts(old(LinkState()), opens[..failed], standaloneMode)
      ensures connected ==>
        LinkState() == Attempt(Attempts(old(LinkState()), opens[..failed], standaloneMode), opens[failed], standaloneMode)
    {
      ghost var s0 := LinkState();
      ghost var tried: seq<OpenOutcome> := [];
      failed, connected := 0, false;
      while failed < |opens|
        invariant failed <= |opens| && tried == opens[..failed]
        invariant NoneOpened(tried)
        invariant LinkState() == Attempts(s0, tried, standaloneMode)
      {
        var o := opens[failed];
        connected := ConnectAttempt(o);
        if connected {
          return;
        }
        AttemptsSnoc(s0, tried, o, standaloneMode);
        assert opens[..failed + 1] == tried + [o];
        tried := tried + [o];
        failed := failed + 1;
      }
    }

    /** The loop re-logging each line a plugin returned under its model's name. */
    method ForwardLines(lines: seq<string>)
      modifies this`logged
      ensures logged == old(logged) + Forward(currentModelName, lines)
    {
      var i := 0;
      while i < |lines|
        invariant 0 <= i <= |lines|
        invariant logged == old(logged) + Forward(currentModelName, lines[..i])
      {
        assert Forward(currentModelName, lines[..i + 1]) == Forward(currentModelName, lines[..i]) + [PluginLine(currentModelName, lines[i])];
        logged := logged + [PluginLine(currentModelName, lines[i])];
        i := i + 1;
      }
      assert lines[..|lines|] == lines;
    }

    /** The plugin call for one frame and its publication: the plugin's output
        (and its log lines, forwarded) when it returns, else the raw frame. */
    method PublishFrame(frame: Frame)
      modifies this`latestProcessedFrame, this`logged, this`published
      ensures latestProcessedFrame == Publish(modelModule, currentModelName, frame).frame
      ensures published == old(published) + [latestProcessedFrame]
      ensures logged == old(logged) + Publish(modelModule, currentModelName, frame).calls
    {
      if modelModule.Some? && modelModule.value.processFrame.Some? {
        var result := modelModule.value.processFrame.value(frame);
        match result {
          case Returned(processed, lines) =>
            latestProcessedFrame := processed;
            ForwardLines(lines);
          case Raised(e) =>
            logged := logged + [ProcessingError(e)];
            latestProcessedFrame := Some(frame);
        }
      } else {
        latestProcessedFrame := Some(frame);
      }
      published := published + [latestProcessedFrame];
    }

    /** One read and, on success, one publication. A failed read releases the
        handle and pauses briefly without touching the retry delay. */
    method ReadStep(r: ReadOutcome)
      requires videoCapture.Some?
      modifies this`videoCapture, this`latestProcessedFrame, this`logged, this`sleeps, this`released, this`published
      ensures r.ReadFailed? ==>
        videoCapture == None && released == old(released) + [old(videoCapture).value] &&
        sleeps == old(sleeps) + [ReadFailurePause] &&
        logged == old(logged) + [FrameReadFailed] &&
        latestProcessedFrame == old(latestProcessedFrame) && published == old(published)
      ensures r.Read? ==>
        var p := Publish(modelModule, currentModelName, r.frame);
        videoCapture == old(videoCapture) && released == old(released) &&
        latestProcessedFrame == p.frame && published == old(published) + [p.frame] &&
        logged == old(logged) + p.calls && sleeps == old(sleeps) + [FramePause]
      ensures ProducerState() == ReadPass(old(ProducerState()), r, modelModule, currentModelName)
    {
      if r.ReadFailed? {
        logged := logged + [FrameReadFailed];
        released := released + [videoCapture.value];
        videoCapture := None;
        sleeps := sleeps + [ReadFailurePause];
      } else {
        PublishFrame(r.frame);
        sleeps := sleeps + [FramePause];
      }
    }

    /** A reconnect cycle as the outer loop sees it: the first `failed` opens
        fail and, when `connected`, the next one succeeds. The delay stays in
        [2, 30] and is 2 once connected; the sleeps are the backoff schedule,
        and the log calls and releases are those of the failed attempts, then
        the log calls of the successful one. */
    method Reconnect(opens: seq<OpenOutcome>) returns (failed: nat, connected: bool)
      requires videoCapture.None? && BaseDelay <= retryDelay <= MaxDelay
      modifies this`videoCapture, this`retryDelay, this`logged, this`sleeps, this`released
      ensures failed <= |opens| && (!connected ==> failed == |opens|) && (connected ==> failed < |opens|)
      ensures NoneOpened(opens[..failed])
      ensures connected ==> opens[failed].Opened? && videoCapture == Some(opens[failed].cap) && retryDelay == BaseDelay
      ensures !connected ==> videoCapture.None? && retryDelay == DelayAfter(old(retryDelay), failed)
      ensures BaseDelay <= retryDelay <= MaxDelay
      ensures sleeps == old(sleeps) + BackoffSleeps(old(retryDelay), failed)
      ensures ProducerSleeps(BackoffSleeps(old(retryDelay), failed))
      ensures logged == old(logged) + FailedAttemptsLogs(standaloneMode, opens[..failed], old(retryDelay))
        + (if connected then AttemptLogs(standaloneMode, opens[failed], DelayAfter(old(retryDelay), failed)) else [])
      ensures released == old(released) + FailedAttemptsReleases(opens[..failed])
      ensures !connected ==> LinkState() == Attempts(old(LinkState()), opens[..failed], standaloneMode)
      ensures connected ==>
        LinkState() == Attempt(Attempts(old(LinkState()), opens[..failed], standaloneMode), opens[failed], standaloneMode)
    {
      ghost var before := LinkState();
      failed, connected := ConnectCycle(opens);
      ghost var tried := opens[..failed];
      AttemptsFail(before, tried, standaloneMode);
      AttemptsFailLogs(before, tried, standaloneMode);
      AttemptsFailReleases(before, tried, standaloneMode);
      BackoffSleepsAt(before.delay, failed);
      DelayAfterInRange(before.delay, failed);
      if connected {
        AttemptConnects(Attempts(before, tried, standaloneMode), opens[failed], standaloneMode);
      }
    }

    /** `processing_loop`, driven by the open and read outcomes the environment
        supplies; it stops (shutdown) when the outcomes it needs run out. Its
        whole effect is `Run` from the starting state with the delay at 2: the
        delay stays in [2, 30] and is 2 while a handle is held, one frame is
        published per successful read, the latest processed frame is the last
        one published, and every sleep is a producer pause. */
    method ProcessingLoop(opens: seq<OpenOutcome>, results: seq<ReadOutcome>) returns (opensUsed: nat, readsUsed: nat)
      requires videoCapture.None?
      modifies this`videoCapture, this`retryDelay, this`latestProcessedFrame, this`logged, this`sleeps, this`released, this`published
      ensures ProducerState() ==
        Run(old(ProducerState()).(link := old(LinkState()).(delay := BaseDelay)), opens, results,
            modelModule, currentModelName, standaloneMode)
      ensures opensUsed <= |opens| && readsUsed <= |results|
      ensures BaseDelay <= retryDelay <= MaxDelay
      ensures videoCapture.Some? ==> retryDelay == BaseDelay
      ensures published == old(published) + PublishedFor(modelModule, currentModelName, results[..readsUsed])
      ensures |published| == |old(published)| ==> latestProcessedFrame == old(latestProcessedFrame)
      ensures |published| > |old(published)| ==> latestProcessedFrame == published[|published| - 1]
      ensures |old(sleeps)| <= |sleeps| && sleeps[..|old(sleeps)|] == old(sleeps)
      ensures ProducerSleeps(sleeps[|old(sleeps)|..])
    {
      retryDelay := BaseDelay;
      ghost var start := ProducerState();
      opensUsed, readsUsed := Produce(opens, results);
      RunSteady(start, opens, results, modelModule, currentModelName, standaloneMode);
      RunLatest(start, opens, results, modelModule, currentModelName, standaloneMode);
      RunSleeps(start, opens, results, modelModule, currentModelName, standaloneMode);
    }

    /** The outer `while running` loop from a steady state: one reconnect cycle
        or one read per iteration, until the outcomes it needs run out. */
    method Produce(opens: seq<OpenOutcome>, results: seq<ReadOutcome>) returns (opensUsed: nat, readsUsed: nat)
      requires Steady(LinkState())
      modifies this`videoCapture, this`retryDelay, this`latestProcessedFrame, this`logged, this`sleeps, this`released, this`published
      ensures ProducerState() == Run(old(ProducerState()), opens, results, modelModule, currentModelName, standaloneMode)
      ensures opensUsed <= |opens| && readsUsed <= |results|
      ensures published == old(published) + PublishedFor(modelModule, currentModelName, results[..readsUsed])
    {
      ghost var start := ProducerState();
      opensUsed, readsUsed := 0, 0;
      while true
        invariant opensUsed <= |opens| && readsUsed <= |results|
        invariant Steady(LinkState())
        invariant published == old(published) + PublishedFor(modelModule, currentModelName, results[..readsUsed])
        invariant Run(start, opens, results, modelModule, currentModelName, standaloneMode) ==
          Run(ProducerState(), opens[opensUsed..], results[readsUsed..], modelModule, currentModelName, standaloneMode)
        decreases |results| - readsUsed, |opens| - opensUsed
      {
        var stop;
        opensUsed, readsUsed, stop := Pass(opens, results, opensUsed, readsUsed, start, old(published));
        if stop {
          break;
        }
      }
    }

    /** One turn of the outer loop, from `opens[i..]` and `results[j..]`: a
        reconnect cycle when there is no handle, else one read. `stop` says the
        loop is over: every attempt failed, or no read is left. */
    method Pass(opens: seq<OpenOutcome>, results: seq<ReadOutcome>, i: nat, j: nat,
                ghost start: Producer, ghost base: seq<Option<Frame>>) returns (i2: nat, j2: nat, stop: bool)
      requires i <= |opens| && j <= |results| && Steady(LinkState())
      requires published == base + PublishedFor(modelModule, currentModelName, results[..j])
      requires Run(start, opens, results, modelModule, currentModelName, standaloneMode) ==
        Run(ProducerState(), opens[i..], results[j..], modelModule, currentModelName, standaloneMode)
      modifies this`videoCapture, this`retryDelay, this`latestProcessedFrame, this`logged, this`sleeps, this`released, this`published
      ensures i2 <= |opens| && j2 <= |results| && Steady(LinkState())
      ensures published == base + PublishedFor(modelModule, currentModelName, results[..j2])
      ensures Run(start, opens, results, modelModule, currentModelName, standaloneMode) ==
        Run(ProducerState(), opens[i2..], results[j2..], modelModule, currentModelName, standaloneMode)
      ensures stop ==> ProducerState() == Run(start, opens, results, modelModule, currentModelName, standaloneMode)
      ensures !stop ==> j < j2 || (j == j2 && i < i2)
    {
      i2, j2, stop := i, j, false;
      if videoCapture.None? {
        var rest := opens[i..];
        var failed, connected := ReconnectPass(rest, results[j..]);
        if !connected {
          i2, stop := i + failed, true;
          return;
        }
        assert rest[failed + 1..] == opens[i + failed + 1..];
        i2 := i + failed + 1;
      } else {
        if j == |results| {
          stop := true;
          return;
        }
        PublishedForSnoc(modelModule, currentModelName, results, j);
        assert results[j..][1..] == results[j + 1..];
        ReadPassStep(opens[i..], results[j..]);
        j2 := j + 1;
      }
    }

    /** A read as the whole loop sees it: what is left of the run after it is
        the run from the new state over the remaining reads. */
    method ReadPassStep(opens: seq<OpenOutcome>, results: seq<ReadOutcome>)
      requires videoCapture.Some? && results != []
      modifies this`videoCapture, this`latestProcessedFrame, this`logged, this`sleeps, this`released, this`published
      ensures Run(old(ProducerState()), opens, results, modelModule, currentModelName, standaloneMode) ==
        Run(ProducerState(), opens, results[1..], modelModule, currentModelName, standaloneMode)
      ensures published == old(published) + (if results[0].Read? then [Publish(modelModule, currentModelName, results[0].frame).frame] else [])
      ensures retryDelay == old(retryDelay) && (videoCapture.Some? ==> videoCapture == old(videoCapture))
    {
      RunRead(ProducerState(), opens, results, modelModule, currentModelName, standaloneMode);
      ReadStep(results[0]);
    }

    /** A reconnect cycle as the whole loop sees it: what is left of the run
        after it is the run from the new state over the outcomes not yet used. */
    method ReconnectPass(opens: seq<OpenOutcome>, results: seq<ReadOutcome>) returns (failed: nat, connected: bool)
      requires videoCapture.None? && Steady(LinkState())
      modifies this`videoCapture, this`retryDelay, this`logged, this`sleeps, this`released
      ensures failed <= |opens| && (!connected ==> failed == |opens|) && (connected ==> failed < |opens|)
      ensures connected <==> videoCapture.Some?
      ensures Steady(LinkState())
      ensures !connected ==>
        ProducerState() == Run(old(ProducerState()), opens, results, modelModule, currentModelName, standaloneMode)
      ensures connected ==>
        Run(old(ProducerState()), opens, results, modelModule, currentModelName, standaloneMode) ==
        Run(ProducerState(), opens[failed + 1..], results, modelModule, currentModelName, standaloneMode)
    {
      ghost var p := ProducerState();
      failed, connected := Reconnect(opens);
      RunAttempts(p, opens, results, modelModule, currentModelName, standaloneMode, failed);
      ghost var p1 := p.(link := Attempts(p.link, opens[..failed], standaloneMode));
      if connected {
        AttemptsFail(p.link, opens[..failed], standaloneMode);
        assert opens[failed..][1..] == opens[failed + 1..] && opens[failed..][0] == opens[failed];
        assert Run(p1, opens[failed..], results, modelModule, currentModelName, standaloneMode) ==
          Run(ProducerState(), opens[failed + 1..], results, modelModule, currentModelName, standaloneMode);
      } else {
        assert opens[failed..] == [];
      }
    }

    /** `load_model`: all or nothing. A missing main.py or a raising import
        leaves the active plugin and its name as they were. `plugins` maps each
        id whose main.py exists to what executing it gives. */
    method LoadModel(modelId: string, plugins: map<string, LoadResult>) returns (ok: bool)
      modifies this`modelModule, this`currentModelName, this`logged
      ensures ok <==> modelId in plugins && plugins[modelId].Loaded?
      ensures ok ==> modelModule == Some(plugins[modelId].plugin) && currentModelName == modelId
      ensures !ok ==> modelModule == old(modelModule) && currentModelName == old(currentModelName)
      ensures modelId !in plugins ==>
        logged == old(logged) + [ModelNotFound(modelId)]
      ensures modelId in plugins && plugins[modelId].LoadRaised? ==>
        logged == old(logged) + [ModelLoadFailed(modelId, plugins[modelId].error)]
      ensures ok ==> logged == old(logged) + [ModelLoaded(modelId)]
    {
      if modelId !in plugins {
        logged := logged + [ModelNotFound(modelId)];
        return false;
      }
      match plugins[modelId] {
        case Loaded(m) =>
          modelModule := Some(m);
          currentModelName := modelId;
          logged := logged + [ModelLoaded(modelId)];
          ok := true;
        case LoadRaised(e) =>
          logged := logged + [ModelLoadFailed(modelId, e)];
          ok := false;
      }
    }

    /** One tick of `generate_processed_frames`: a chunk framing the encoded
        latest frame (or placeholder), or nothing when encoding fails. */
    method NextProcessedChunk(encode: (Frame, Option<int>) -> Option<seq<byte>>) returns (chunk: Option<seq<byte>>)
      ensures chunk.None? <==> TickJpeg(latestProcessedFrame, encode).None?
      ensures chunk.Some? ==> Unframe(chunk.value) == TickJpeg(latestProcessedFrame, encode)
      ensures latestProcessedFrame.None? && chunk.Some? ==> Unframe(chunk.value) == encode(Placeholder, None)
    {
      var buffer;
      if latestProcessedFrame.Some? {
        buffer := encode(latestProcessedFrame.value, Some(ProcessedQuality));
      } else {
        buffer := encode(Placeholder, None);
      }
      if buffer.Some? {
        chunk := Some(Prefix + buffer.value + CRLF);
        UnframeChunk(buffer.value);
      } else {
        chunk := None;
      }
    }
  }

  /** `get_models`: scan the listing (absent directory: empty list). */
  method GetModels(dirExists: bool, entries: seq<ModelDir>) returns (models: Option<seq<map<string, string>>>)
    ensures !dirExists ==> models == Some([])
    ensures dirExists ==> models == Discovered(entries)
  {
    models := Some([]);
    if !dirExists {
      return;
    }
    var i := 0;
    while i < |entries|
      invariant 0 <= i <= |entries|
      invariant models == Discovered(entries[..i])
    {
      assert entries[..i + 1][..i] == entries[..i];
      var e := entries[i];
      if models.Some? && e.isDir && !e.manifest.NoManifest? {
        if e.manifest.Unparsable? {
          DiscoveredPrefixNone(entries, i + 1);
          return None;
        } else {
          models := Some(models.value + [e.manifest.meta["id" := e.name]]);
        }
      }
      i := i + 1;
    }
    assert entries[..|entries|] == entries;
  }
}
