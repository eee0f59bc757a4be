/** The session entry point used by the runner's callers: run_simulation. */
module WebMockManager {
  import opened Wrappers
  import opened WebMock
  import opened WebMockSession

  class WebMockManager {
    const applications: seq<Application>
    const callback: Option<Block>

    constructor (applications: seq<Application>, callback: Option<Block>)
      ensures this.applications == applications && this.callback == callback
    {
      this.applications := applications;
      this.callback := callback;
    }

    /**
     * `run_simulation { … }`: setup, then the block, then teardown on every exit.
     * The final state is the block's state with the snapshot put back.
     */
    method RunSimulation<T>(wm: WebMock, block: Config -> (Config, Outcome<T>)) returns (outcome: Outcome<T>)
      modifies wm
      ensures var ran := block(SetupState(old(wm.State()), applications, callback));
        wm.State() == TeardownState(ran.0, Capture(old(wm.State()))) && outcome == ran.1
      ensures IsEnabled(block(SetupState(old(wm.State()), applications, callback)).0) ==>
                SameObservable(wm.State(), old(wm.State()))
    {
      outcome := Run(wm, applications, callback, block);
      var during := block(SetupState(old(wm.State()), applications, callback)).0;
      if IsEnabled(during) {
        SessionRoundTrip(old(wm.State()), during);
      }
    }
  }
}
