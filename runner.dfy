/**
 * The runner: it answers an intercepted Net::HTTP request from the first
 * application whose hostname pattern matches the Host header, supports only
 * GET, and turns the application's Rack response into a Net::HTTP response.
 * While a simulation runs, Net::HTTP's request, start and finish methods are
 * replaced, and all three are put back however the simulation ends.
 */
module Runner {
  import opened Wrappers
  import opened RubyObjects
  import Status

  /**
   * A fake application as the runner sees it: the pattern its hostnames match, and
   * its name. The runner reads only `hostname_pattern`, while the session classes
   * read only `pattern`, so each module declares the view of an application it reads.
   */
  datatype Application = Application(hostnamePattern: Pattern, name: string)

  /** What Rack::MockRequest returns: status, the headers in order, and the body. */
  datatype MockResponse = MockResponse(status: int, originalHeaders: seq<(string, string)>, body: string)

  /** `Rack::MockRequest.new(application).get(path)`. */
  type RackGet = (Application, string) -> MockResponse

  /** The parts of a Net::HTTP request the runner reads; `host` is `request["Host"]`. */
  datatype NetRequest = NetRequest(httpMethod: string, path: string, host: Option<string>)

  datatype RunnerError =
    /** NotImplementedError, raised for every method but GET. */
    | NotImplemented(message: string)
    /** No application matched, so Rack is handed nil and fails when it calls it. */
    | NoApplication

  const GET := "GET"

  datatype Runner = Runner(applications: seq<Application>)

  predicate HostMatches(application: Application, host: Option<string>, libs: Libraries)
  {
    CaseEqual(application.hostnamePattern, host, libs)
  }

  /** `applications.find { … }`: the index of the first application whose pattern matches. */
  function FindApplication(applications: seq<Application>, host: Option<string>, libs: Libraries): (found: Option<nat>)
    ensures found.Some? ==> found.value < |applications| && HostMatches(applications[found.value], host, libs)
    ensures found.Some? ==> forall j :: 0 <= j < found.value ==> !HostMatches(applications[j], host, libs)
    ensures found.None? ==> forall j :: 0 <= j < |applications| ==> !HostMatches(applications[j], host, libs)
  {
    if applications == [] then None
    else if HostMatches(applications[0], host, libs) then Some(0)
    else match FindApplication(applications[1..], host, libs)
      case None => None
      case Some(i) => Some(i + 1)
  }

  /** First match wins: an application that matches after no earlier one does is the one chosen. */
  lemma FirstMatchWins(applications: seq<Application>, host: Option<string>, libs: Libraries, i: nat)
    requires i < |applications| && HostMatches(applications[i], host, libs)
    requires forall j :: 0 <= j < i ==> !HostMatches(applications[j], host, libs)
    ensures FindApplication(applications, host, libs) == Some(i)
  {
  }

  /**
   * Routing and the method gate: a method other than GET raises NotImplementedError;
   * a GET is answered by the chosen application for the request's path.
   */
  function Dispatch(runner: Runner, request: NetRequest, rack: RackGet, libs: Libraries): Result<MockResponse, RunnerError>
  {
    var found := FindApplication(runner.applications, request.host, libs);
    if request.httpMethod != GET then Failure(NotImplemented("Simulating " + request.httpMethod + " is not supported"))
    else if found.None? then Failure(NoApplication)
    else Success(rack(runner.applications[found.value], request.path))
  }

  /** What Dispatch does, case by case. */
  lemma DispatchCases(runner: Runner, request: NetRequest, rack: RackGet, libs: Libraries)
    ensures request.httpMethod != GET ==>
              Dispatch(runner, request, rack, libs) ==
                Failure(NotImplemented("Simulating " + request.httpMethod + " is not supported"))
    ensures request.httpMethod == GET ==>
              match FindApplication(runner.applications, request.host, libs)
              case None => Dispatch(runner, request, rack, libs) == Failure(NoApplication)
              case Some(i) => Dispatch(runner, request, rack, libs) ==
                                Success(rack(runner.applications[i], request.path))
  {
  }

  /** A Net::HTTP response: the status line, the header fields as added, and the body. */
  class HTTPResponse {
    const httpVersion: string
    const code: string
    const message: string
    var fields: seq<(string, string)>
    var body: Option<string>

    constructor (httpVersion: string, code: string, message: string)
      ensures this.httpVersion == httpVersion && this.code == code && this.message == message
      ensures fields == [] && body == None
    {
      this.httpVersion := httpVersion;
      this.code := code;
      this.message := message;
      fields := [];
      body := None;
    }

    /** `add_field(name, value)`: one more field, after those already there. */
    method AddField(name: string, value: string)
      modifies this`fields
      ensures fields == old(fields) + [(name, value)]
    {
      fields := fields + [(name, value)];
    }
  }

  /**
   * The response of runner.rb:65-67 for a status line: a fresh Net::HTTP response
   * with version "1.1", every header of the Rack response added in order, and its body.
   */
  method BuildResponse(code: string, message: string, mock: MockResponse) returns (response: HTTPResponse)
    ensures fresh(response)
    ensures response.httpVersion == "1.1" && response.code == code && response.message == message
    ensures response.fields == mock.originalHeaders && response.body == Some(mock.body)
  {
    response := new HTTPResponse("1.1", code, message);
    var i := 0;
    while i < |mock.originalHeaders|
      invariant 0 <= i <= |mock.originalHeaders|
      invariant response.fields == mock.originalHeaders[..i] && response.body == None
    {
      response.AddField(mock.originalHeaders[i].0, mock.originalHeaders[i].1);
      i := i + 1;
    }
    response.body := Some(mock.body);
  }

  /**
   * `request(request, body, &block)`. On success the response has HTTP version
   * "1.1", the status code's value and description, every header of the Rack
   * response in order and its body; a given block is called once, with that
   * response, which is then returned.
   */
  method Request(runner: Runner, request: NetRequest, rack: RackGet, libs: Libraries, blockGiven: bool)
    returns (result: Result<HTTPResponse, RunnerError>, yielded: seq<HTTPResponse>)
    ensures Dispatch(runner, request, rack, libs).Failure? ==>
              result == Failure(Dispatch(runner, request, rack, libs).error) && yielded == []
    ensures Dispatch(runner, request, rack, libs).Success? ==>
              var mock := Dispatch(runner, request, rack, libs).value;
              var status := Status.FromCode(mock.status, None);
              result.Success? && fresh(result.value) &&
              result.value.httpVersion == "1.1" &&
              result.value.code == status.value && result.value.message == status.description &&
              result.value.fields == mock.originalHeaders && result.value.body == Some(mock.body) &&
              yielded == (if blockGiven then [result.value] else [])
  {
    var dispatched := Dispatch(runner, request, rack, libs);
    if dispatched.Failure? {
      return Failure(dispatched.error), [];
    }
    var mock := dispatched.value;
    var status := Status.FromCode(mock.status, None);
    var response := BuildResponse(status.value, status.description, mock);
    yielded := if blockGiven then [response] else [];
    result := Success(response);
  }

  /**
   * As written, the status line is built from the String-keyed lookup of status.rb,
   * which never hits the table: every simulated response would carry the message
   * "Unknown" (a 200 answer included), with the same code string as the corrected
   * lookup that Request uses.
   */
  lemma AsWrittenResponseMessage(runner: Runner, request: NetRequest, rack: RackGet, libs: Libraries)
    requires Dispatch(runner, request, rack, libs).Success?
    ensures var code := Dispatch(runner, request, rack, libs).value.status;
      Status.FromCodeAsWritten(code, None) == Status.Status(Status.FromCode(code, None).value, "Unknown")
    ensures Dispatch(runner, request, rack, libs).value.status == 200 ==>
              Status.FromCodeAsWritten(200, None).description == "Unknown" &&
              Status.FromCode(200, None).description == "OK"
  {
    Status.OkUnderBothLookups();
  }

  /** What a slot of Net::HTTP holds: some original definition, or one installed by run. */
  datatype MethodBody =
    | Defined(name: string, version: nat)
    | SimulatedStart
    | SimulatedFinish
    | ForwardToRunner(runner: Runner)

  datatype Slots = Slots(request: MethodBody, start: MethodBody, finish: MethodBody)

  /** The slots while a simulation of this runner is running. */
  function Patched(runner: Runner): Slots
  {
    Slots(ForwardToRunner(runner), SimulatedStart, SimulatedFinish)
  }

  /** The three redefinable instance methods of Net::HTTP. */
  class NetHTTP {
    var requestMethod: MethodBody
    var startMethod: MethodBody
    var finishMethod: MethodBody

    constructor (slots: Slots)
      ensures Current() == slots
    {
      requestMethod, startMethod, finishMethod := slots.request, slots.start, slots.finish;
    }

    /** The definitions the three slots hold now. */
    function Current(): Slots
      reads this
    {
      Slots(requestMethod, startMethod, finishMethod)
    }
  }

  /**
   * `run(&simulation)`: save the three methods, install the simulated ones, run the
   * simulation (given the patched slots, it yields the slots it leaves and how it
   * ended), and put all three originals back on either exit.
   */
  method Run<T>(runner: Runner, http: NetHTTP, simulation: Slots -> (Slots, Outcome<T>)) returns (outcome: Outcome<T>)
    modifies http
    ensures http.Current() == old(http.Current())
    ensures outcome == simulation(Patched(runner)).1
  {
    var originalRequest, originalStart, originalFinish := http.requestMethod, http.startMethod, http.finishMethod;
    http.startMethod := SimulatedStart;
    http.finishMethod := SimulatedFinish;
    http.requestMethod := ForwardToRunner(runner);
    var ran := simulation(http.Current());
    http.requestMethod, http.startMethod, http.finishMethod := ran.0.request, ran.0.start, ran.0.finish;
    http.requestMethod := originalRequest;
    http.startMethod := originalStart;
    http.finishMethod := originalFinish;
    outcome := ran.1;
  }
}
