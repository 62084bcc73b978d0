/**
 * The alert policy of the notifier's main form: what an inbound build result,
 * a transport error or an unhandled UI-thread exception makes the client show
 * and play. Each handler is a function from its inputs to the effects it
 * performs, in order, and to the exception it lets escape, if any.
 */
module Alerts {
  import opened Wrappers
  import opened Results

  /** The balloon icons the form uses (WinForms' `ToolTipIcon`). */
  datatype Icon = Info | Warning | Error

  /** `Path.Combine(dir, file)`, kept as its two parts. */
  datatype Path = Combine(dir: string, file: string)

  /** An observable action: a balloon tip, or a blocking playback of a wave file. */
  datatype Effect = Balloon(icon: Icon, title: string, text: string) | Play(wav: Path)

  /** What a handler did, and the message of the exception it re-threw, if any. */
  datatype Handled = Handled(effects: seq<Effect>, thrown: Option<string>)

  /**
   * The world the handlers read: the balloon title resource, the directory of
   * the entry assembly, `File.Exists`, and whether `SoundPlayer.PlaySync` on a
   * path throws (with the exception's message).
   */
  datatype Host = Host(serverName: string, programDir: string,
                       fileExists: Path -> bool, playFault: Path -> Option<string>)

  const Nothing := Handled([], None)

  /** A balloon followed by whatever the rest of the handler did. */
  function Then(e: Effect, rest: Handled): (h: Handled)
  {
    Handled([e] + rest.effects, rest.thrown)
  }

  /** `ShowBalloon`: the title is always the server-name resource. */
  function ShowBalloon(icon: Icon, message: string, host: Host): (e: Effect)
    ensures e.Balloon? && e.icon == icon && e.text == message
    ensures e.title == host.serverName
  {
    Balloon(icon, host.serverName, message)
  }

  /**
   * The file-selection chain of `PlaySound`, which checks Success first; it
   * picks the file the outcome table assigns.
   */
  function SoundFile(r: BuildResult): (f: Option<string>)
    ensures f == WavName(r.outcome)
  {
    if r.IsSuccess() then Some("success.wav")
    else if r.IsFailure() then Some("failure.wav")
    else if r.IsUnstable() then Some("unstable.wav")
    else if r.IsAborted() then Some("aborted.wav")
    else None
  }

  /** The existence guard and playback of `PlaySound`, once a file is chosen. */
  function PlayWav(file: string, host: Host): (h: Handled)
    ensures |h.effects| <= 1
    ensures h.effects != [] <==> host.fileExists(Combine(host.programDir, file))
    ensures h.effects != [] ==> h.effects[0] == Play(Combine(host.programDir, file))
    ensures h.thrown == (if h.effects == [] then None else host.playFault(Combine(host.programDir, file)))
  {
    var wavPath := Combine(host.programDir, file);
    if host.fileExists(wavPath) then Handled([Play(wavPath)], host.playFault(wavPath))
    else Nothing
  }

  /** `PlaySound`: nothing at all for an unrecognised outcome. */
  function PlaySound(r: BuildResult, host: Host): (h: Handled)
    ensures |h.effects| <= 1
    ensures r.outcome == Other ==> h == Nothing
    ensures h.effects != [] <==>
              WavName(r.outcome).Some? &&
              host.fileExists(Combine(host.programDir, WavName(r.outcome).value))
    ensures h.effects != [] ==>
              h.effects[0] == Play(Combine(host.programDir, WavName(r.outcome).value)) &&
              h.thrown == host.playFault(Combine(host.programDir, WavName(r.outcome).value))
    ensures h.effects == [] ==> h.thrown == None
  {
    match SoundFile(r)
    case None => Nothing
    case Some(file) => PlayWav(file, host)
  }

  /**
   * `OnRecievedMessage`: parse the frame, then pick the balloon and the sound.
   * Failure is checked before the `ShowErrorOnly` suppression, so it is never
   * suppressed.
   */
  function OnRecievedMessage(data: string, parse: string -> BuildResult,
                             showErrorOnly: bool, host: Host): (h: Handled)
    ensures |h.effects| <= 2
    ensures h.effects != [] ==>
              h.effects[0].Balloon? && h.effects[0].title == host.serverName &&
              h.effects[0].text == parse(data).message
    ensures h.effects != [] ==>
              h.effects[1..] == PlaySound(parse(data), host).effects &&
              h.thrown == PlaySound(parse(data), host).thrown
    ensures parse(data).IsFailure() ==> h.effects != [] && h.effects[0].icon == Info
    ensures showErrorOnly && !parse(data).IsFailure() ==> h == Nothing
    ensures parse(data).outcome == Other ==> h == Nothing
  {
    var result := parse(data);
    var msg := result.ToMessage();
    if result.IsFailure() then
      Then(ShowBalloon(Info, msg, host), PlaySound(result, host))
    else if showErrorOnly then
      Nothing
    else if result.IsSuccess() then
      Then(ShowBalloon(Info, msg, host), PlaySound(result, host))
    else if result.IsUnstable() then
      Then(ShowBalloon(Warning, msg, host), PlaySound(result, host))
    else if result.IsAborted() then
      Then(ShowBalloon(Info, msg, host), PlaySound(result, host))
    else
      Nothing
  }

  /** `OnError`: a transport error becomes an Error balloon and nothing else. */
  function OnError(errorMessage: string, host: Host): (h: Handled)
    ensures h == Handled([Balloon(Error, host.serverName, errorMessage)], None)
  {
    Then(ShowBalloon(Error, errorMessage, host), Nothing)
  }

  /** `OnThreadException`: an exception escaping on the UI thread, likewise. */
  function OnThreadException(exceptionMessage: string, host: Host): (h: Handled)
    ensures h == Handled([Balloon(Error, host.serverName, exceptionMessage)], None)
  {
    Then(ShowBalloon(Error, exceptionMessage, host), Nothing)
  }

  // ---------------------------------------------------------------------------
  // The decision table, stated independently of the two if-chains.

  /** The icon and the sound file an outcome calls for. */
  datatype Alert = Alert(icon: Option<Icon>, sound: Option<string>)

  /** The file that belongs to each outcome. */
  function WavName(o: Outcome): (f: Option<string>)
  {
    match o
    case Success => Some("success.wav")
    case Failure => Some("failure.wav")
    case Unstable => Some("unstable.wav")
    case Aborted => Some("aborted.wav")
    case Other => None
  }

  /** Failure always alerts; with `ShowErrorOnly` nothing else does. */
  function AlertFor(o: Outcome, showErrorOnly: bool): (a: Alert)
  {
    match o
    case Failure => Alert(Some(Info), WavName(o))
    case Success => if showErrorOnly then Alert(None, None) else Alert(Some(Info), WavName(o))
    case Unstable => if showErrorOnly then Alert(None, None) else Alert(Some(Warning), WavName(o))
    case Aborted => if showErrorOnly then Alert(None, None) else Alert(Some(Info), WavName(o))
    case Other => Alert(None, None)
  }

  /** Carry out an alert: the balloon, then the sound if its file exists. */
  function Perform(a: Alert, message: string, host: Host): (h: Handled)
  {
    if a.icon.None? then Nothing
    else Then(ShowBalloon(a.icon.value, message, host),
              if a.sound.None? then Nothing else PlayWav(a.sound.value, host))
  }

  /** Distinct outcomes never share a sound file. */
  lemma WavNameInjective(a: Outcome, b: Outcome)
    requires WavName(a).Some? && WavName(a) == WavName(b)
    ensures a == b
  {
  }

  /** The Failure-first chain of `OnRecievedMessage` agrees with the table. */
  lemma OnRecievedMessageFollowsTable(data: string, parse: string -> BuildResult,
                                      showErrorOnly: bool, host: Host)
    ensures OnRecievedMessage(data, parse, showErrorOnly, host)
            == Perform(AlertFor(parse(data).outcome, showErrorOnly), parse(data).message, host)
  {
  }

  /** A Failure shows an Info balloon and tries `failure.wav`, whatever the flag says. */
  lemma FailureAlwaysAlerts(data: string, parse: string -> BuildResult,
                            showErrorOnly: bool, host: Host)
    requires parse(data).outcome == Failure
    ensures OnRecievedMessage(data, parse, showErrorOnly, host)
            == Then(Balloon(Info, host.serverName, parse(data).message),
                    PlayWav("failure.wav", host))
  {
  }

  /** Without `ShowErrorOnly` the three other recognised outcomes alert as the table says. */
  lemma NonFailureAlerts(data: string, parse: string -> BuildResult, host: Host)
    requires parse(data).outcome in {Success, Unstable, Aborted}
    ensures var r := parse(data);
            OnRecievedMessage(data, parse, false, host)
            == Then(Balloon(if r.outcome == Unstable then Warning else Info,
                            host.serverName, r.message),
                    PlayWav(WavName(r.outcome).value, host))
  {
  }
}
