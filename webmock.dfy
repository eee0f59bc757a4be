/**
 * WebMock's process-wide state, as far as the interception sessions read and
 * write it: the stub registry, the after-request callback registry, four
 * configuration flags, and the enabled flag that the WebMockPatches module adds.
 * WebMock itself is not part of this model; each of its operations below changes
 * only the field its name says.
 */
module WebMock {
  import opened Wrappers
  import opened RubyObjects

  /** A fake application as WebMock sees it: the URI pattern it answers for, and its name. */
  datatype Application = Application(pattern: Pattern, name: string)

  /** `stub_request(:any, application.pattern).to_rack(application)`. */
  datatype Stub = Stub(pattern: Pattern, application: Application)

  /** A block given to `after_request`, identified by its object identity. */
  datatype Block = Block(id: nat)

  /** An entry of the callback registry: the options hash and the block. */
  datatype Callback = Callback(options: seq<(string, bool)>, block: Block)

  /** The options `after_request` records when it is given none. */
  const NoOptions: seq<(string, bool)> := []

  /** All of the state, as one value. `enabled` is the patched `@enabled`: nil until set. */
  datatype Config = Config(
    requestStubs: seq<Stub>,
    callbacks: seq<Callback>,
    allowNetConnect: bool,
    allowLocalhost: bool,
    showBodyDiff: bool,
    showStubbingInstructions: bool,
    enabled: Option<bool>)

  /** `enabled?`: `!!@enabled`, so nil and false both read as false. */
  predicate IsEnabled(c: Config)
  {
    c.enabled == Some(true)
  }

  /** A call of one of the two patched methods. */
  datatype Toggle = EnableCall | DisableCall

  /** `@enabled` after a sequence of `enable!` and `disable!` calls, oldest first. */
  function FlagAfter(flag: Option<bool>, calls: seq<Toggle>): Option<bool>
    decreases calls
  {
    if calls == [] then flag
    else FlagAfter(Some(calls[0] == EnableCall), calls[1..])
  }

  /**
   * Whatever the calls, `@enabled` is a boolean once there has been one and is true
   * exactly when the most recent call was `enable!`; with no call it is unchanged.
   */
  lemma {:induction false} FlagFollowsLastCall(flag: Option<bool>, calls: seq<Toggle>)
    ensures calls == [] ==> FlagAfter(flag, calls) == flag
    ensures calls != [] ==> FlagAfter(flag, calls) == Some(calls[|calls| - 1] == EnableCall)
    decreases calls
  {
    if calls != [] {
      FlagFollowsLastCall(Some(calls[0] == EnableCall), calls[1..]);
    }
  }

  class WebMock {
    var requestStubs: seq<Stub>
    var callbacks: seq<Callback>
    var allowNetConnect: bool
    var allowLocalhost: bool
    var showBodyDiff: bool
    var showStubbingInstructions: bool
    var enabled: Option<bool>

    function State(): Config
      reads this
    {
      Config(requestStubs, callbacks, allowNetConnect, allowLocalhost, showBodyDiff,
             showStubbingInstructions, enabled)
    }

    /** WebMock before either patched method has run: `@enabled` is nil, so `enabled?` is false. */
    constructor (requestStubs: seq<Stub>, callbacks: seq<Callback>, allowNetConnect: bool,
                 allowLocalhost: bool, showBodyDiff: bool, showStubbingInstructions: bool)
      ensures State() == Config(requestStubs, callbacks, allowNetConnect, allowLocalhost,
                                showBodyDiff, showStubbingInstructions, None)
      ensures !Enabled()
    {
      this.requestStubs := requestStubs;
      this.callbacks := callbacks;
      this.allowNetConnect := allowNetConnect;
      this.allowLocalhost := allowLocalhost;
      this.showBodyDiff := showBodyDiff;
      this.showStubbingInstructions := showStubbingInstructions;
      enabled := None;
    }

    /** `enabled?`. */
    predicate Enabled()
      reads this
    {
      IsEnabled(State())
    }

    /** The patched `enable!`: sets `@enabled` to true. */
    method Enable()
      modifies this`enabled
      ensures enabled == FlagAfter(old(enabled), [EnableCall])
      ensures Enabled()
    {
      enabled := Some(true);
    }

    /** The patched `disable!`: sets `@enabled` to false. */
    method Disable()
      modifies this`enabled
      ensures enabled == FlagAfter(old(enabled), [DisableCall])
      ensures !Enabled()
    {
      enabled := Some(false);
    }

    /** Registering a stub: the registry keeps the newest stub first (the last declared wins). */
    method StubRequest(stub: Stub)
      modifies this`requestStubs
      ensures requestStubs == [stub] + old(requestStubs)
    {
      requestStubs := [stub] + requestStubs;
    }

    /** `after_request(options, &block)`: appends a callback. */
    method AfterRequest(options: seq<(string, bool)>, block: Block)
      modifies this`callbacks
      ensures callbacks == old(callbacks) + [Callback(options, block)]
    {
      callbacks := callbacks + [Callback(options, block)];
    }

    /** `CallbackRegistry.reset`. */
    method ResetCallbacks()
      modifies this`callbacks
      ensures callbacks == []
    {
      callbacks := [];
    }

    /** `allow_net_connect!`. */
    method AllowNetConnect()
      modifies this`allowNetConnect
      ensures allowNetConnect
    {
      allowNetConnect := true;
    }

    /** `hide_body_diff!`. */
    method HideBodyDiff()
      modifies this`showBodyDiff
      ensures !showBodyDiff
    {
      showBodyDiff := false;
    }

    /** `hide_stubbing_instructions!`. */
    method HideStubbingInstructions()
      modifies this`showStubbingInstructions
      ensures !showStubbingInstructions
    {
      showStubbingInstructions := false;
    }
  }
}
