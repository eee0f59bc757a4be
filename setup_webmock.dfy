/** The second session entry point, SetupWebmock.perform: the same discipline as WebMockManager. */
module SetupWebmock {
  import opened Wrappers
  import opened WebMock
  import opened WebMockSession

  class SetupWebmock {
    const applications: seq<Application>
    const callback: Option<Block>

    constructor (applications: seq<Application>, callback: Option<Block>)
      ensures this.applications == applications && this.callback == callback
    {
      this.applications := applications;
      this.callback := callback;
    }

    /** `perform { … }`: setup_webmock, the block, and reset_webmock on every exit. */
    method Perform<T>(wm: WebMock, block: Config -> (Config, Outcome<T>)) returns (outcome: Outcome<T>)
      modifies wm
      ensures var ran := block(SetupState(old(wm.State()), applications, callback));
        wm.State() == TeardownState(ran.0, Capture(old(wm.State()))) && outcome == ran.1
      ensures IsEnabled(block(SetupState(old(wm.State()), applications, callback)).0) ==>
                SameObservable(wm.State(), old(wm.State()))
    {
      outcome := Run(wm, applications, callback, block);
      var during := block(SetupState(old(wm.State()), applications, callback)).0;
      if IsEnabled(during) {
        SessionRoundTrip(old(wm.State()), during);
      }
    }
  }

  /** `SetupWebmock.perform(applications, callback) { … }`: a new instance performs the session. */
  method PerformWith<T>(applications: seq<Application>, callback: Option<Block>, wm: WebMock,
                        block: Config -> (Config, Outcome<T>)) returns (outcome: Outcome<T>)
    modifies wm
    ensures var ran := block(SetupState(old(wm.State()), applications, callback));
      wm.State() == TeardownState(ran.0, Capture(old(wm.State()))) && outcome == ran.1
  {
    var session := new SetupWebmock(applications, callback);
    outcome := session.Perform(wm, block);
  }
}
