/**
 * One interception session over WebMock's global state, as both session
 * classes perform it: take a snapshot, register the session's stubs and
 * callback and switch net connections on and the diagnostics off, run the
 * block, and, however the block ends, put the snapshot back.
 */
module WebMockSession {
  import opened Wrappers
  import opened WebMock

  /** The saved configuration: copies of both registries, the four flags and `enabled?`. */
  datatype Snapshot = Snapshot(
    requestStubs: seq<Stub>,
    callbacks: seq<Callback>,
    allowNetConnect: bool,
    allowLocalhost: bool,
    showBodyDiff: bool,
    showStubbingInstructions: bool,
    enabledPreviously: bool)

  /** The snapshot of a state, taken before anything is changed. */
  function Capture(c: Config): Snapshot
  {
    Snapshot(c.requestStubs, c.callbacks, c.allowNetConnect, c.allowLocalhost, c.showBodyDiff,
             c.showStubbingInstructions, IsEnabled(c))
  }

  function StubFor(application: Application): Stub
  {
    Stub(application.pattern, application)
  }

  /** The stubs that registering the applications in order adds, newest first. */
  function StubsNewestFirst(applications: seq<Application>): seq<Stub>
  {
    if applications == [] then []
    else [StubFor(applications[|applications| - 1])] + StubsNewestFirst(applications[..|applications| - 1])
  }

  /** The state after setup. */
  function SetupState(c: Config, applications: seq<Application>, callback: Option<Block>): Config
  {
    c.(requestStubs := StubsNewestFirst(applications) + c.requestStubs,
       callbacks := c.callbacks + (if callback.Some? then [Callback(NoOptions, callback.value)] else []),
       allowNetConnect := true,
       showBodyDiff := false,
       showStubbingInstructions := false,
       enabled := Some(true))
  }

  /** The state after teardown from a snapshot. */
  function TeardownState(c: Config, s: Snapshot): Config
  {
    c.(allowNetConnect := s.allowNetConnect,
       allowLocalhost := s.allowLocalhost,
       showBodyDiff := s.showBodyDiff,
       showStubbingInstructions := s.showStubbingInstructions,
       callbacks := s.callbacks,
       requestStubs := s.requestStubs,
       enabled := if s.enabledPreviously then c.enabled else Some(false))
  }

  /** Two states agree on everything a caller can observe: the registries, the flags and `enabled?`. */
  predicate SameObservable(a: Config, b: Config)
  {
    a.requestStubs == b.requestStubs && a.callbacks == b.callbacks &&
    a.allowNetConnect == b.allowNetConnect && a.allowLocalhost == b.allowLocalhost &&
    a.showBodyDiff == b.showBodyDiff && a.showStubbingInstructions == b.showStubbingInstructions &&
    IsEnabled(a) == IsEnabled(b)
  }

  /**
   * Setup adds one stub per application: the stub of the last application comes
   * first, the stubs already registered follow unchanged.
   */
  lemma {:induction false} SetupStubOrder(applications: seq<Application>, previous: seq<Stub>, k: nat)
    requires k < |applications|
    ensures |StubsNewestFirst(applications)| == |applications|
    ensures (StubsNewestFirst(applications) + previous)[k] == StubFor(applications[|applications| - 1 - k])
    ensures (StubsNewestFirst(applications) + previous)[|applications|..] == previous
  {
    StubsLength(applications);
    if k > 0 {
      var prefix := applications[..|applications| - 1];
      SetupStubOrder(prefix, previous, k - 1);
      assert prefix[|prefix| - 1 - (k - 1)] == applications[|applications| - 1 - k];
    }
  }

  lemma {:induction false} StubsLength(applications: seq<Application>)
    ensures |StubsNewestFirst(applications)| == |applications|
  {
    if applications != [] {
      StubsLength(applications[..|applications| - 1]);
    }
  }

  /** Setup switches net connections on, hides both diagnostics, enables, and adds the callback only if given. */
  lemma SetupFlags(c: Config, applications: seq<Application>, callback: Option<Block>)
    ensures var after := SetupState(c, applications, callback);
      after.allowNetConnect && !after.showBodyDiff && !after.showStubbingInstructions && IsEnabled(after) &&
      after.allowLocalhost == c.allowLocalhost &&
      after.callbacks == (if callback.None? then c.callbacks else c.callbacks + [Callback(NoOptions, callback.value)])
  {
  }

  /**
   * Teardown puts back the four flags, the callbacks in their order and the stubs
   * of the snapshot; it disables only if WebMock was not enabled before, and
   * otherwise leaves the enabled flag as the block left it.
   */
  lemma TeardownRestoresSnapshot(before: Config, during: Config)
    ensures var after := TeardownState(during, Capture(before));
      after.allowNetConnect == before.allowNetConnect && after.allowLocalhost == before.allowLocalhost &&
      after.showBodyDiff == before.showBodyDiff &&
      after.showStubbingInstructions == before.showStubbingInstructions &&
      after.callbacks == before.callbacks && after.requestStubs == before.requestStubs &&
      (IsEnabled(after) <==> IsEnabled(before) && IsEnabled(during))
  {
  }

  /**
   * The round-trip law: whatever the block does, including raising, the state after
   * the session agrees with the state before it, provided the block leaves WebMock
   * enabled as setup left it.
   */
  lemma SessionRoundTrip(before: Config, during: Config)
    requires IsEnabled(during)
    ensures SameObservable(TeardownState(during, Capture(before)), before)
  {
  }

  /**
   * Sessions nest: an inner session run inside an outer one hands back exactly the
   * state the outer session set up, so the outer block resumes as it was, provided
   * the inner block leaves WebMock enabled. Whatever applications and callback the
   * inner session registers, `innerDuring` is the state its block ends in.
   */
  lemma NestedSessionRestoresOuter(
    before: Config,
    outerApplications: seq<Application>, outerCallback: Option<Block>,
    innerDuring: Config)
    requires IsEnabled(innerDuring)
    ensures var outer := SetupState(before, outerApplications, outerCallback);
      TeardownState(innerDuring, Capture(outer)) == outer
  {
  }

  /** Setup: snapshot first, then the callback, one stub per application in order, and the flags. */
  method Setup(wm: WebMock, applications: seq<Application>, callback: Option<Block>) returns (snapshot: Snapshot)
    modifies wm
    ensures snapshot == Capture(old(wm.State()))
    ensures wm.State() == SetupState(old(wm.State()), applications, callback)
  {
    snapshot := Capture(wm.State());
    if callback.Some? {
      wm.AfterRequest(NoOptions, callback.value);
    }
    for i := 0 to |applications|
      invariant wm.requestStubs == StubsNewestFirst(applications[..i]) + old(wm.requestStubs)
      invariant wm.callbacks == SetupState(old(wm.State()), applications, callback).callbacks
      invariant wm.allowNetConnect == old(wm.allowNetConnect) && wm.allowLocalhost == old(wm.allowLocalhost)
      invariant wm.showBodyDiff == old(wm.showBodyDiff) && wm.enabled == old(wm.enabled)
      invariant wm.showStubbingInstructions == old(wm.showStubbingInstructions)
    {
      wm.StubRequest(StubFor(applications[i]));
      assert applications[..i + 1][..i] == applications[..i];
    }
    assert applications[..|applications|] == applications;
    wm.AllowNetConnect();
    wm.HideBodyDiff();
    wm.HideStubbingInstructions();
    wm.Enable();
  }

  /** Teardown: the flags, then the callbacks replayed in order, then the stubs, then maybe disable. */
  method Teardown(wm: WebMock, snapshot: Snapshot)
    modifies wm
    ensures wm.State() == TeardownState(old(wm.State()), snapshot)
  {
    wm.allowNetConnect := snapshot.allowNetConnect;
    wm.allowLocalhost := snapshot.allowLocalhost;
    wm.showBodyDiff := snapshot.showBodyDiff;
    wm.showStubbingInstructions := snapshot.showStubbingInstructions;
    wm.ResetCallbacks();
    for i := 0 to |snapshot.callbacks|
      invariant wm.callbacks == snapshot.callbacks[..i]
      invariant wm.requestStubs == old(wm.requestStubs) && wm.enabled == old(wm.enabled)
      invariant wm.allowNetConnect == snapshot.allowNetConnect && wm.allowLocalhost == snapshot.allowLocalhost
      invariant wm.showBodyDiff == snapshot.showBodyDiff
      invariant wm.showStubbingInstructions == snapshot.showStubbingInstructions
    {
      wm.AfterRequest(snapshot.callbacks[i].options, snapshot.callbacks[i].block);
      assert snapshot.callbacks[..i + 1] == snapshot.callbacks[..i] + [snapshot.callbacks[i]];
    }
    assert snapshot.callbacks[..|snapshot.callbacks|] == snapshot.callbacks;
    wm.requestStubs := snapshot.requestStubs;
    if !snapshot.enabledPreviously {
      wm.Disable();
    }
  }

  /**
   * A whole session. The block is given the state after setup and yields the state
   * it leaves behind and how it ended; teardown runs in either case, and a raised
   * exception is passed on after it.
   */
  method Run<T>(wm: WebMock, applications: seq<Application>, callback: Option<Block>,
                block: Config -> (Config, Outcome<T>)) returns (outcome: Outcome<T>)
    modifies wm
    ensures var ran := block(SetupState(old(wm.State()), applications, callback));
      wm.State() == TeardownState(ran.0, Capture(old(wm.State()))) && outcome == ran.1
  {
    var snapshot := Setup(wm, applications, callback);
    var ran := block(wm.State());
    wm.requestStubs, wm.callbacks := ran.0.requestStubs, ran.0.callbacks;
    wm.allowNetConnect, wm.allowLocalhost := ran.0.allowNetConnect, ran.0.allowLocalhost;
    wm.showBodyDiff, wm.showStubbingInstructions := ran.0.showBodyDiff, ran.0.showStubbingInstructions;
    wm.enabled := ran.0.enabled;
    Teardown(wm, snapshot);
    outcome := ran.1;
  }
}
