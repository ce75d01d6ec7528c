/**
 * The logging facade of lib/logger.ts: the level weight table, the
 * level-gated emission of messages, `setLevel` with its validation, and the
 * `getArrow` diagnostics symbol.
 *
 * The process-wide singleton is replaced by an explicit `Logger` value that
 * records the current level and the messages handed to the output provider.
 */
module Logging {
  import opened Results

  /** The severity levels, in the order the LEVELS enum declares them. */
  datatype Level = Debug | Info | Warn | Error | Silent

  /** The weight LEVELS gives each level. */
  function Weight(l: Level): nat
  {
    match l
    case Debug => 10
    case Info => 20
    case Warn => 30
    case Error => 50
    case Silent => 80
  }

  /** Position of a level in the enum declaration: debug first, silent last. */
  function Rank(l: Level): nat
  {
    match l
    case Debug => 0
    case Info => 1
    case Warn => 2
    case Error => 3
    case Silent => 4
  }

  /** The name under which a level is configured. */
  function LevelName(l: Level): string
  {
    match l
    case Debug => "debug"
    case Info => "info"
    case Warn => "warn"
    case Error => "error"
    case Silent => "silent"
  }

  const InvalidLevelMessage: string := "[HPM] Log level error. Invalid logLevel."

  /** The logger's five output methods; each forwards to the provider function of the same name. */
  datatype Method = LogMethod | DebugMethod | InfoMethod | WarnMethod | ErrorMethod

  /** The level a method is gated by; `log` is not gated. */
  function Gate(m: Method): Option<Level>
  {
    match m
    case LogMethod => None
    case DebugMethod => Some(Debug)
    case InfoMethod => Some(Info)
    case WarnMethod => Some(Warn)
    case ErrorMethod => Some(Error)
  }

  /** One already-interpolated message handed to the provider function named by `via`. */
  datatype Entry = Entry(via: Method, message: string)

  /**
   * The logger's state: the current level (`None` before the constructor has
   * stored one) and every message emitted so far, oldest first.
   */
  datatype Logger = Logger(level: Option<Level>, emitted: seq<Entry>)

  /** Recognises one of the five level names. */
  function ParseLevel(name: string): (r: Option<Level>)
    ensures r.Some? ==> LevelName(r.value) == name
    ensures r.None? <==> forall l :: LevelName(l) != name
  {
    if name == "debug" then Some(Debug)
    else if name == "info" then Some(Info)
    else if name == "warn" then Some(Warn)
    else if name == "error" then Some(Error)
    else if name == "silent" then Some(Silent)
    else None
  }

  /**
   * `setLevel(name)`: a recognised name is stored as the current level and
   * nothing else changes; any other name throws.
   */
  function SetLevel(lg: Logger, name: string): (r: Result<Logger>)
    ensures r.Ok? <==> exists l :: LevelName(l) == name
    ensures r.Ok? ==> r.value.level.Some? && LevelName(r.value.level.value) == name
    ensures r.Ok? ==> r.value.emitted == lg.emitted
    ensures r.Err? ==> r.message == InvalidLevelMessage
  {
    match ParseLevel(name)
    case Some(l) => Ok(lg.(level := Some(l)))
    case None => Err(InvalidLevelMessage)
  }

  /** The logger as its owner sees it once `setLevel(name)` has returned or thrown. */
  function AfterSetLevel(lg: Logger, name: string): (next: Logger)
    ensures (forall l :: LevelName(l) != name) ==> next == lg
    ensures (exists l :: LevelName(l) == name) ==> next.level.Some? && LevelName(next.level.value) == name
    ensures next.emitted == lg.emitted
  {
    match SetLevel(lg, name)
    case Ok(updated) => updated
    case Err(_) => lg
  }

  /** A freshly constructed logger: its constructor sets the level `info`. */
  function NewLogger(): (lg: Logger)
    ensures lg.level == Some(Info)
    ensures lg.emitted == []
  {
    assert LevelName(Info) == "info";
    AfterSetLevel(Logger(None, []), "info")
  }

  /**
   * `_showLevel`: a message of level `l` is shown when a current level is set
   * and its weight does not exceed the weight of `l`.
   */
  function ShowLevel(current: Option<Level>, l: Level): (r: bool)
    ensures r <==> current.Some? && Rank(current.value) <= Rank(l)
  {
    current.Some? && Weight(current.value) <= Weight(l)
  }

  /**
   * Calling output method `m` with an (already interpolated) message: `log`
   * always forwards it to the provider, the other methods only when the
   * current level's weight is at most the method's level's weight.
   */
  function Call(lg: Logger, m: Method, message: string): (r: Logger)
    ensures r.level == lg.level
    ensures |lg.emitted| <= |r.emitted| <= |lg.emitted| + 1 && r.emitted[..|lg.emitted|] == lg.emitted
    ensures |r.emitted| == |lg.emitted| + 1 <==>
              Gate(m).None? || (lg.level.Some? && Weight(lg.level.value) <= Weight(Gate(m).value))
    ensures |r.emitted| == |lg.emitted| + 1 ==> r.emitted[|lg.emitted|] == Entry(m, message)
  {
    match Gate(m)
    case None => lg.(emitted := lg.emitted + [Entry(m, message)])
    case Some(l) =>
      if ShowLevel(lg.level, l) then lg.(emitted := lg.emitted + [Entry(m, message)]) else lg
  }

  /** Whether a call of `m` adds an entry. */
  predicate Emits(lg: Logger, m: Method, message: string)
  {
    |Call(lg, m, message).emitted| > |lg.emitted|
  }

  /** The weights rank the levels in their declared order. */
  lemma WeightsFollowDeclaration(a: Level, b: Level)
    ensures Weight(a) < Weight(b) <==> Rank(a) < Rank(b)
    ensures Weight(a) == Weight(b) <==> a == b
  {
  }

  /** A level name parses back to its level. */
  lemma LevelNameRoundTrip(l: Level)
    ensures ParseLevel(LevelName(l)) == Some(l)
  {
  }

  /** If a gated message is shown, every message of a heavier level is shown as well. */
  lemma EmissionMonotone(lg: Logger, m: Method, m': Method, message: string, message': string)
    requires Gate(m).Some? && Gate(m').Some?
    requires Weight(Gate(m).value) <= Weight(Gate(m').value)
    requires Emits(lg, m, message)
    ensures Emits(lg, m', message')
  {
  }

  /** Raising the current level never shows more. */
  lemma RaisingLevelHidesMore(lg: Logger, c: Level, c': Level, m: Method, message: string)
    requires Weight(c) <= Weight(c')
    requires Emits(lg.(level := Some(c')), m, message)
    ensures Emits(lg.(level := Some(c)), m, message)
  {
  }

  /** At level `silent`, debug/info/warn/error calls leave the logger as it was. */
  lemma SilentShowsOnlyLog(lg: Logger, m: Method, message: string)
    requires lg.level == Some(Silent)
    requires m != LogMethod
    ensures Call(lg, m, message) == lg
  {
  }

  /** `log` emits at every level, `silent` included. */
  lemma LogAlwaysEmits(lg: Logger, message: string)
    ensures Call(lg, LogMethod, message).emitted == lg.emitted + [Entry(LogMethod, message)]
  {
  }

  /** An unknown name such as `foo` throws and leaves the level as it was. */
  lemma UnknownLevelThrows(lg: Logger)
    ensures SetLevel(lg, "foo") == Err(InvalidLevelMessage)
    ensures AfterSetLevel(lg, "foo") == lg
  {
  }

  /** Corrected behaviour: every level `setLevel` accepts, except `silent`, shows error messages. */
  lemma AcceptedLevelShowsErrors(lg: Logger, name: string)
    requires SetLevel(lg, name).Ok?
    requires name != "silent"
    ensures ShowLevel(SetLevel(lg, name).value.level, Error)
  {
  }

  // ---------------------------------------------------------------------
  // lib/logger.ts as written: `isValidLevel` checks the name against
  // `Object.keys(LEVELS)`, and for a numeric TypeScript enum those keys also
  // include the reverse-mapping keys "10", "20", "30", "50" and "80".
  // ---------------------------------------------------------------------

  /** A key of the LEVELS enum object: a level's name, or its weight written in decimal. */
  datatype LevelKey = NameKey(level: Level) | WeightKey(level: Level)

  /** The weight of a level, spelled in decimal as the enum's reverse-mapping key. */
  function WeightText(l: Level): string
  {
    match l
    case Debug => "10"
    case Info => "20"
    case Warn => "30"
    case Error => "50"
    case Silent => "80"
  }

  /** The value of a string of decimal digits. */
  function DecimalValue(s: string): nat
    requires forall i :: 0 <= i < |s| ==> '0' <= s[i] <= '9'
  {
    if |s| == 0 then 0
    else DecimalValue(s[..|s| - 1]) * 10 + (s[|s| - 1] as int - '0' as int)
  }

  function KeyText(k: LevelKey): string
  {
    match k
    case NameKey(l) => LevelName(l)
    case WeightKey(l) => WeightText(l)
  }

  /** `isValidLevel` as written: accepts any key of the enum object. */
  function ParseLevelKeyAsWritten(name: string): (r: Option<LevelKey>)
    ensures r.Some? ==> KeyText(r.value) == name
    ensures r.None? <==> forall k :: KeyText(k) != name
  {
    match ParseLevel(name)
    case Some(l) => Some(NameKey(l))
    case None =>
      if name == "10" then Some(WeightKey(Debug))
      else if name == "20" then Some(WeightKey(Info))
      else if name == "30" then Some(WeightKey(Warn))
      else if name == "50" then Some(WeightKey(Error))
      else if name == "80" then Some(WeightKey(Silent))
      else None
  }

  /**
   * `_showLevel` as written, for a stored key: looking a weight key up in
   * LEVELS yields a level NAME, and comparing that string with a number is
   * false, so nothing gated is shown.
   */
  function ShowLevelAsWritten(current: Option<LevelKey>, l: Level): (r: bool)
    ensures current.Some? && current.value.NameKey? ==> r == ShowLevel(Some(current.value.level), l)
    ensures current.None? || current.value.WeightKey? ==> !r
  {
    match current
    case None => false
    case Some(NameKey(c)) => Weight(c) <= Weight(l)
    case Some(WeightKey(_)) => false
  }

  /** The reverse keys are exactly the weights written in decimal. */
  lemma WeightTextIsDecimal(l: Level)
    ensures forall i :: 0 <= i < |WeightText(l)| ==> '0' <= WeightText(l)[i] <= '9'
    ensures DecimalValue(WeightText(l)) == Weight(l)
  {
    var t := WeightText(l);
    assert t[..1] == [t[0]];
    assert DecimalValue(t[..1]) == t[0] as int - '0' as int by {
      assert t[..1][..0] == [];
    }
  }

  /**
   * Counterexample: as written, `setLevel('10')` is accepted, and afterwards
   * even error messages are suppressed although 10 is the debug weight;
   * the corrected `SetLevel` rejects the name.
   */
  lemma NumericLevelSilencesEverything()
    ensures ParseLevelKeyAsWritten("10") == Some(WeightKey(Debug))
    ensures !ShowLevelAsWritten(ParseLevelKeyAsWritten("10"), Error)
    ensures SetLevel(NewLogger(), "10").Err?
  {
  }

  // ---------------------------------------------------------------------
  // Diagnostics arrow
  // ---------------------------------------------------------------------

  /**
   * `getArrow`: summarises whether a request's path was rewritten and/or
   * its target re-routed, comparing by plain value equality.
   */
  function GetArrow(originalPath: string, newPath: string, originalTarget: string, newTarget: string): (arrow: string)
    ensures |arrow| == 2 && arrow[1] == '>'
    ensures arrow == "->" <==> originalPath == newPath && originalTarget == newTarget
    ensures arrow == "~>" <==> originalPath != newPath && originalTarget == newTarget
    ensures arrow == "=>" <==> originalPath == newPath && originalTarget != newTarget
    ensures arrow == "≈>" <==> originalPath != newPath && originalTarget != newTarget
  {
    var isNewTarget := originalTarget != newTarget;
    var isNewPath := originalPath != newPath;
    var head :=
      if isNewPath && !isNewTarget then '~'
      else if !isNewPath && isNewTarget then '='
      else if isNewPath && isNewTarget then '≈'
      else '-';
    [head, '>']
  }

  /** Reads an arrow back as (path changed, target changed). */
  function ArrowChanges(arrow: string): Option<(bool, bool)>
  {
    if arrow == "->" then Some((false, false))
    else if arrow == "~>" then Some((true, false))
    else if arrow == "=>" then Some((false, true))
    else if arrow == "≈>" then Some((true, true))
    else None
  }

  /** The arrow encodes exactly the two change bits. */
  lemma ArrowRoundTrip(originalPath: string, newPath: string, originalTarget: string, newTarget: string)
    ensures ArrowChanges(GetArrow(originalPath, newPath, originalTarget, newTarget))
              == Some((originalPath != newPath, originalTarget != newTarget))
  {
  }

  /** The arrow depends on nothing but the two equality tests. */
  lemma ArrowDependsOnlyOnChanges(p: string, p': string, t: string, t': string,
                                  q: string, q': string, u: string, u': string)
    requires (p == p') == (q == q')
    requires (t == t') == (u == u')
    ensures GetArrow(p, p', t, t') == GetArrow(q, q', u, u')
  {
  }
}
