/**
 * The `edge:drivers:logcat` command: builds the hub authority, pins the hub's
 * certificate fingerprint trust-on-first-use in the known-hubs file, resolves
 * which log stream to open and classifies stream errors.
 *
 * The operator's answers, the live-log client's calls, the address parser and
 * the connection-error classifier are parameters; the known-hubs file is an
 * object holding what a read of it would give.
 */
module LogCat {
  import opened Wrappers
  import opened Strings

  const DefaultAllText: string := "all"
  const DefaultLiveLogPort: nat := 9495

  /** Why the command stops. */
  datatype CliError =
    | CommandError(message: string)   // `this.error(message)`
    | ThrownError(message: string)    // a plain `Error(message)` thrown by a helper
    | FileSystemError(code: string)   // a read or write of the known-hubs file failed
    | MalformedKnownHubs              // the known-hubs file is not valid JSON

  // ---------------------------------------------------------------------------
  // Authority
  // ---------------------------------------------------------------------------

  /**
   * Splits an authority at its last colon into the host and a decimal port;
   * the reading direction of `Authority`.
   */
  function SplitAuthority(authority: string): Option<(string, nat)>
  {
    match LastIndexOf(authority, ':')
    case None => None
    case Some(i) =>
      match ParseNat(authority[i + 1..])
      case None => None
      case Some(port) => Some((authority[..i], port))
  }

  lemma AuthorityParts(ipv4: string, port: nat)
    ensures SplitAuthority(ipv4 + ":" + NatToString(port)) == Some((ipv4, port))
  {
    var digits := NatToString(port);
    var authority := ipv4 + ":" + digits;
    assert ':' !in digits by {
      forall i | 0 <= i < |digits| ensures digits[i] != ':' {
        assert IsDigit(digits[i]);
      }
    }
    LastIndexOfBeforeTail(ipv4, digits, ':');
    assert authority[..|ipv4|] == ipv4;
    assert authority[|ipv4| + 1..] == digits;
    ParseNatToString(port);
  }

  /** In `s + [c] + t` with no `c` in `t`, the last `c` is the one after `s`. */
  lemma {:induction false} LastIndexOfBeforeTail(s: string, t: string, c: char)
    requires c !in t
    ensures LastIndexOf(s + [c] + t, c) == Some(|s|)
    decreases |t|
  {
    if t != [] {
      var whole := s + [c] + t;
      assert whole[..|whole| - 1] == s + [c] + t[..|t| - 1];
      assert t[|t| - 1] in t;
      LastIndexOfBeforeTail(s, t[..|t| - 1], c);
    }
  }

  /**
   * The hub authority `ipv4:port`, with the live-log port 9495 when the address
   * names none. Reading it back gives the host unchanged and the port used.
   */
  function Authority(ipv4: string, port: Option<nat>): (authority: string)
    ensures SplitAuthority(authority) == Some((ipv4, if port.Some? then port.value else DefaultLiveLogPort))
  {
    var liveLogPort := if port.Some? then port.value else DefaultLiveLogPort;
    AuthorityParts(ipv4, liveLogPort);
    ipv4 + ":" + NatToString(liveLogPort)
  }

  /** Different hosts or ports never share an authority, so never share a known-hubs entry. */
  lemma AuthorityIsInjective(ipv4: string, port: Option<nat>, ipv4': string, port': Option<nat>)
    requires Authority(ipv4, port) == Authority(ipv4', port')
    ensures ipv4 == ipv4'
    ensures (if port.Some? then port.value else DefaultLiveLogPort) == (if port'.Some? then port'.value else DefaultLiveLogPort)
  {
  }

  // ---------------------------------------------------------------------------
  // The driver prompt
  // ---------------------------------------------------------------------------

  /** The answer to the driver prompt; an empty answer takes the default "all". */
  function DriverAnswer(typed: string): string {
    if typed == "" then DefaultAllText else typed
  }

  /**
   * The prompt's validation. `convertToId` stands for converting an id or a
   * 1-based index against the hub's driver list (`None` for `false`). `None`
   * accepts; `Some(message)` is shown and the operator is asked again.
   */
  function ValidateDriverInput(input: string, convertToId: string -> Option<string>): (verdict: Option<string>)
    ensures verdict.None? <==> input == DefaultAllText || (convertToId(input).Some? && convertToId(input).value != "")
    ensures verdict.Some? ==> verdict.value == "Invalid id or index \"" + input + "\". Please enter an index or valid id."
  {
    if input == DefaultAllText || (convertToId(input).Some? && convertToId(input).value != "") then None
    else Some("Invalid id or index \"" + input + "\". Please enter an index or valid id.")
  }

  /** What `promptForDrivers` returns for an answer: "all" as is, otherwise the converted id. */
  function PromptForDrivers(input: string, convertToId: string -> Option<string>): (r: Result<string, CliError>)
    ensures input == DefaultAllText ==> r == Ok(DefaultAllText)
    ensures input != DefaultAllText && convertToId(input).Some? ==> r == Ok(convertToId(input).value)
    ensures input != DefaultAllText && convertToId(input).None?
            ==> r == Err(ThrownError("unable to convert " + input + " to id"))
  {
    if input == DefaultAllText then Ok(input)
    else match convertToId(input)
      case None => Err(ThrownError("unable to convert " + input + " to id"))
      case Some(id) => Ok(id)
  }

  /** An answer the validation accepts always converts, to "all" or to a non-empty id. */
  lemma AcceptedDriverInputConverts(input: string, convertToId: string -> Option<string>)
    requires ValidateDriverInput(input, convertToId).None?
    ensures PromptForDrivers(input, convertToId).Ok?
    ensures PromptForDrivers(input, convertToId).value != ""
    ensures input != DefaultAllText ==> Some(PromptForDrivers(input, convertToId).value) == convertToId(input)
  {
  }

  /**
   * Pressing enter at the driver prompt takes the default "all", which the
   * validation accepts and which selects the aggregate stream of all drivers;
   * any other accepted answer gives the id it converts to.
   */
  lemma {:induction false} DriverAnswerSelectsStream(typed: string, convertToId: string -> Option<string>)
    requires ValidateDriverInput(DriverAnswer(typed), convertToId).None?
    ensures PromptForDrivers(DriverAnswer(typed), convertToId).Ok?
    ensures typed == "" ==> LogSourceDriver(false, PromptForDrivers(DriverAnswer(typed), convertToId).value).None?
    ensures typed != "" && typed != DefaultAllText
            ==> PromptForDrivers(DriverAnswer(typed), convertToId) == Ok(convertToId(typed).value)
  {
    AcceptedDriverInputConverts(DriverAnswer(typed), convertToId);
  }

  // ---------------------------------------------------------------------------
  // Trust on first use
  // ---------------------------------------------------------------------------

  datatype KnownHub = KnownHub(hostname: string, fingerprint: string)
  type KnownHubs = map<string, KnownHub>

  /** What reading and parsing the known-hubs file gives; a missing file is `Unreadable("ENOENT")`. */
  datatype TrustFile = Stored(hubs: KnownHubs) | Unparseable | Unreadable(code: string)

  const NotFoundCode: string := "ENOENT"

  /** The known hubs at the start of a check: a missing file is an empty map, other failures propagate. */
  function LoadKnownHubs(file: TrustFile): (r: Result<KnownHubs, CliError>)
    ensures file == Unreadable(NotFoundCode) ==> r == Ok(map[])
    ensures file.Stored? ==> r == Ok(file.hubs)
    ensures r.Err? <==> file.Unparseable? || (file.Unreadable? && file.code != NotFoundCode)
    ensures file.Unreadable? && file.code != NotFoundCode ==> r == Err(FileSystemError(file.code))
  {
    match file
    case Stored(hubs) => Ok(hubs)
    case Unparseable => Err(MalformedKnownHubs)
    case Unreadable(code) => if code == NotFoundCode then Ok(map[]) else Err(FileSystemError(code))
  }

  /** The stored entry for the authority pins the presented fingerprint. */
  predicate IsTrusted(hubs: KnownHubs, authority: string, fingerprint: string) {
    authority in hubs && hubs[authority].fingerprint == fingerprint
  }

  datatype Decision = Silent | Rejected | Pinned(hubs: KnownHubs)

  /**
   * The verdict on a presented fingerprint: silent when pinned; otherwise the
   * operator is asked, and a yes pins the authority to the fingerprint while
   * leaving every other entry as it was.
   */
  function Decide(hubs: KnownHubs, authority: string, fingerprint: string, accepts: bool): (d: Decision)
    ensures d.Silent? <==> IsTrusted(hubs, authority, fingerprint)
    ensures d.Rejected? <==> !IsTrusted(hubs, authority, fingerprint) && !accepts
    ensures d.Pinned? ==> d.hubs.Keys == hubs.Keys + {authority}
    ensures d.Pinned? ==> d.hubs[authority] == KnownHub(authority, fingerprint)
    ensures d.Pinned? ==> forall a :: a in hubs && a != authority ==> d.hubs[a] == hubs[a]
  {
    if authority in hubs && hubs[authority].fingerprint == fingerprint then Silent
    else if !accepts then Rejected
    else Pinned(hubs[authority := KnownHub(authority, fingerprint)])
  }

  /** The confirm prompt's answer; an empty answer takes the default, no. */
  function ConfirmAnswer(typed: Option<bool>): bool {
    if typed.Some? then typed.value else false
  }

  /** One TLS connection: the authority, the presented fingerprint and the operator's answer if asked. */
  datatype Attempt = Attempt(authority: string, fingerprint: string, accepts: bool)

  /** The known hubs after a series of connections, each starting from what the last one left. */
  function AfterAttempts(hubs: KnownHubs, attempts: seq<Attempt>): KnownHubs
    decreases |attempts|
  {
    if attempts == [] then hubs
    else
      var before := AfterAttempts(hubs, attempts[..|attempts| - 1]);
      var attempt := attempts[|attempts| - 1];
      match Decide(before, attempt.authority, attempt.fingerprint, attempt.accepts)
      case Pinned(after) => after
      case _ => before
  }

  /** Every entry is stored under the authority it names. */
  ghost predicate EntriesNamedByKey(hubs: KnownHubs) {
    forall a :: a in hubs ==> hubs[a].hostname == a
  }

  /** Connections keep every entry stored under its own authority, and never forget a hub. */
  lemma {:induction false} AttemptsKeepEntriesNamed(hubs: KnownHubs, attempts: seq<Attempt>)
    requires EntriesNamedByKey(hubs)
    ensures EntriesNamedByKey(AfterAttempts(hubs, attempts))
    ensures hubs.Keys <= AfterAttempts(hubs, attempts).Keys
    decreases |attempts|
  {
    if attempts != [] {
      AttemptsKeepEntriesNamed(hubs, attempts[..|attempts| - 1]);
    }
  }

  /**
   * An entry changes only through a connection to that authority whose
   * operator said yes: nothing re-pins a hub silently.
   */
  lemma {:induction false} OnlyConfirmedConnectionsRepin(hubs: KnownHubs, attempts: seq<Attempt>, authority: string)
    requires forall i :: 0 <= i < |attempts| && attempts[i].authority == authority ==> !attempts[i].accepts
    ensures authority in AfterAttempts(hubs, attempts) <==> authority in hubs
    ensures authority in hubs ==> AfterAttempts(hubs, attempts)[authority] == hubs[authority]
    decreases |attempts|
  {
    if attempts != [] {
      OnlyConfirmedConnectionsRepin(hubs, attempts[..|attempts| - 1], authority);
    }
  }

  /** After a connection pins a fingerprint, the next connection presenting it is silent. */
  lemma PinnedFingerprintIsTrustedNext(hubs: KnownHubs, authority: string, fingerprint: string, accepts: bool)
    requires Decide(hubs, authority, fingerprint, accepts).Pinned?
    ensures Decide(Decide(hubs, authority, fingerprint, accepts).hubs, authority, fingerprint, false) == Silent
  {
  }

  /** The first contact with 10.0.0.5 on the default port, confirmed by the operator. */
  lemma FirstContactScenario()
    ensures Authority("10.0.0.5", None) == "10.0.0.5:9495"
    ensures Decide(map[], "10.0.0.5:9495", "AA:BB", true)
            == Pinned(map["10.0.0.5:9495" := KnownHub("10.0.0.5:9495", "AA:BB")])
  {
  }

  // ---------------------------------------------------------------------------
  // The log stream
  // ---------------------------------------------------------------------------

  /**
   * The driver id given to `getLogSource`: none (the aggregate stream of all
   * drivers) under `--all` or when "all" was chosen, else the chosen driver.
   */
  function LogSourceDriver(all: bool, chosenDriver: string): (driverId: Option<string>)
    ensures driverId.None? <==> all || chosenDriver == DefaultAllText
    ensures driverId.Some? ==> driverId.value == chosenDriver
  {
    if all || chosenDriver == DefaultAllText then None else Some(chosenDriver)
  }

  /** An error event of the stream: `status`, `message`, and how the object itself reads. */
  datatype StreamError = StreamError(status: Option<int>, message: Option<string>, text: string)

  predicate IsAuthorizationFailure(error: StreamError) {
    error.status == Some(401) || error.status == Some(403)
  }

  /**
   * The message a stream error ends the command with. A 401 or 403 names the
   * authority; anything else goes to the connection-error classifier
   * (`handleConnectionErrors`, which throws a readable cause for the failures it
   * knows), and otherwise the error's own message, or the error itself.
   */
  function StreamErrorMessage(authority: string, error: StreamError,
                              handleConnectionErrors: (string, Option<string>) -> Option<string>): (message: string)
    ensures IsAuthorizationFailure(error) ==> message == "Unauthorized at " + authority
    ensures !IsAuthorizationFailure(error) && handleConnectionErrors(authority, error.message).Some?
            ==> message == handleConnectionErrors(authority, error.message).value
    ensures !IsAuthorizationFailure(error) && handleConnectionErrors(authority, error.message).None?
            ==> message == (if error.message.Some? then error.message.value else error.text)
  {
    if IsAuthorizationFailure(error) then "Unauthorized at " + authority
    else match handleConnectionErrors(authority, error.message)
      case Some(cause) => cause
      case None => if error.message.Some? then error.message.value else error.text
  }

  /** The live-log client, bound to the hub authority. */
  datatype LiveLogClient = LiveLogClient(authority: string)

  /** The command's event source: none yet, open on a URL, or torn down. */
  datatype Source = NoSource | Listening(url: string) | TornDown(url: string)

  /** What the operator sees, in order. */
  datatype Notice =
    | Warn(text: string)
    | Ask(question: string)
    | ActionStart(status: string)
    | ActionStop(status: string)
    | Teardown
    | Report(message: string)

  const HubAddressQuestion: string := "Enter hub IP address with optionally appended port number:"
  const ContinueQuestion: string := "Are you sure you want to continue connecting?"

  function UnknownHubWarning(authority: string, fingerprint: string): string {
    "The authenticity of " + authority + " can't be established. Certificate fingerprint is " + fingerprint
  }

  function AddedHubNotice(authority: string): string {
    "Permanently added " + authority + " to the list of known hubs."
  }

  /** The known-hubs file `<cacheDir>/known_hubs.json`. */
  class KnownHubsFile {
    const path: string
    var content: TrustFile

    constructor (cacheDir: string, content: TrustFile)
      ensures path == cacheDir + "/known_hubs.json"
      ensures this.content == content
    {
      path := cacheDir + "/known_hubs.json";
      this.content := content;
    }
  }

  class LogCatCommand {
    const cacheDir: string
    var authority: string
    var logClient: Option<LiveLogClient>
    var source: Source
    var output: seq<Notice>

    constructor (cacheDir: string)
      ensures this.cacheDir == cacheDir
      ensures authority == "" && logClient.None? && source.NoSource? && output == []
    {
      this.cacheDir := cacheDir;
      authority := "";
      logClient := None;
      source := NoSource;
      output := [];
    }

    /**
     * `init`: takes the hub address from `--hub-address` or asks for it, parses
     * it (`parseIpAndPort`), and binds the authority and the live-log client.
     */
    method Init(hubAddressFlag: Option<string>, typedAddress: string,
                parseIpAndPort: string -> Result<(string, Option<nat>), CliError>)
      returns (r: Result<(), CliError>)
      modifies this`authority, this`logClient, this`output
      ensures output == old(output) + (if hubAddressFlag.None? then [Ask(HubAddressQuestion)] else [])
      ensures var address := if hubAddressFlag.Some? then hubAddressFlag.value else typedAddress;
              match parseIpAndPort(address)
              case Err(e) => r == Err(e) && authority == old(authority) && logClient == old(logClient)
              case Ok(parsed) =>
                && r == Ok(())
                && authority == Authority(parsed.0, parsed.1)
                && logClient == Some(LiveLogClient(authority))
    {
      var address := typedAddress;
      if hubAddressFlag.Some? {
        address := hubAddressFlag.value;
      } else {
        output := output + [Ask(HubAddressQuestion)];
      }
      match parseIpAndPort(address)
      case Err(e) =>
        return Err(e);
      case Ok(parsed) =>
        var (ipv4, port) := parsed;
        authority := Authority(ipv4, port);
        logClient := Some(LiveLogClient(authority));
        return Ok(());
    }

    /**
     * `checkServerIdentity`: reads the known hubs from the file in the
     * command's cache directory, and unless the authority is pinned to the
     * presented fingerprint warns, asks the operator, and on a yes writes the
     * updated map back (`writeFailure` is the code of a failed write).
     */
    method CheckServerIdentity(file: KnownHubsFile, fingerprint: string, answer: Option<bool>,
                               writeFailure: Option<string>)
      returns (r: Result<(), CliError>)
      requires file.path == cacheDir + "/known_hubs.json"
      modifies file, this`output
      ensures match LoadKnownHubs(old(file.content))
        case Err(e) =>
          r == Err(e) && file.content == old(file.content) && output == old(output)
        case Ok(hubs) =>
          match Decide(hubs, authority, fingerprint, ConfirmAnswer(answer))
          case Silent =>
            r == Ok(()) && file.content == old(file.content) && output == old(output)
          case Rejected =>
            && r == Err(CommandError("Hub verification failed."))
            && file.content == old(file.content)
            && output == old(output) + [Warn(UnknownHubWarning(authority, fingerprint)), Ask(ContinueQuestion)]
          case Pinned(updated) =>
            if writeFailure.Some? then
              && r == Err(FileSystemError(writeFailure.value))
              && file.content == old(file.content)
              && output == old(output) + [Warn(UnknownHubWarning(authority, fingerprint)), Ask(ContinueQuestion)]
            else
              && r == Ok(())
              && file.content == Stored(updated)
              && output == old(output) + [Warn(UnknownHubWarning(authority, fingerprint)), Ask(ContinueQuestion),
                                          Warn(AddedHubNotice(authority))]
    {
      var knownHubs: KnownHubs := map[];
      match file.content {
        case Stored(hubs) =>
          knownHubs := hubs;
        case Unparseable =>
          return Err(MalformedKnownHubs);
        case Unreadable(code) =>
          if code != NotFoundCode {
            return Err(FileSystemError(code));
          }
      }

      if authority !in knownHubs || knownHubs[authority].fingerprint != fingerprint {
        output := output + [Warn(UnknownHubWarning(authority, fingerprint)), Ask(ContinueQuestion)];
        var verified := ConfirmAnswer(answer);
        if !verified {
          return Err(CommandError("Hub verification failed."));
        }
        knownHubs := knownHubs[authority := KnownHub(authority, fingerprint)];
        if writeFailure.Some? {
          return Err(FileSystemError(writeFailure.value));
        }
        file.content := Stored(knownHubs);
        output := output + [Warn(AddedHubNotice(authority))];
      }
      return Ok(());
    }

    /**
     * `run`: asks the live-log client for the stream of the chosen scope
     * (`chosenDriver` is what the driver selection returned; it is not consulted
     * under `--all`), opens it, and installs the error handler.
     */
    method Run(all: bool, chosenDriver: string, getLogSource: Option<string> -> Result<string, CliError>)
      returns (r: Result<(), CliError>)
      modifies this`source, this`output
      ensures match getLogSource(LogSourceDriver(all, chosenDriver))
        case Err(e) => r == Err(e) && source == old(source) && output == old(output)
        case Ok(url) => r == Ok(()) && source == Listening(url) && output == old(output) + [ActionStart("connecting")]
    {
      var sourceUrl;
      if all {
        sourceUrl := getLogSource(None);
      } else {
        sourceUrl := if chosenDriver == DefaultAllText then getLogSource(None) else getLogSource(Some(chosenDriver));
      }
      if sourceUrl.Err? {
        return Err(sourceUrl.error);
      }
      output := output + [ActionStart("connecting")];
      source := Listening(sourceUrl.value);
      return Ok(());
    }

    /**
     * The stream's error handler: stops the spinner and tears the source down
     * before the error is classified and reported.
     */
    method OnError(error: StreamError, handleConnectionErrors: (string, Option<string>) -> Option<string>)
      requires source.Listening?
      modifies this`source, this`output
      ensures source == TornDown(old(source).url)
      ensures output == old(output) + [ActionStop("failed"), Teardown,
                                       Report(StreamErrorMessage(authority, error, handleConnectionErrors))]
    {
      output := output + [ActionStop("failed")];
      source := TornDown(source.url);
      output := output + [Teardown];
      output := output + [Report(StreamErrorMessage(authority, error, handleConnectionErrors))];
    }
  }
}
