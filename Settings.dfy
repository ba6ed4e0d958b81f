/**
 * The settings snapshot the provider consumes (IMemoryLoggerSettings) and the
 * severity scale it filters on (Microsoft.Extensions.Logging.LogLevel).
 */
module Settings {
  import opened Wrappers

  /** LogLevel by its underlying value; C# compares the enum numerically. */
  newtype LogLevel = x: int | 0 <= x <= 6

  const Trace: LogLevel := 0
  const Debug: LogLevel := 1
  const Information: LogLevel := 2
  const Warning: LogLevel := 3
  const Error: LogLevel := 4
  const Critical: LogLevel := 5
  /** LogLevel.None, the highest value. */
  const NoLogging: LogLevel := 6

  /**
   * An immutable settings snapshot.
   *   maxLogCount     -- MaxLogCount, the capacity given to each new logger
   *   switches        -- the table TryGetSwitch looks a key up in (exact match)
   *   hasChangeToken  -- whether ChangeToken is non-null
   *   reloaded        -- what Reload() returns (None for null)
   */
  datatype Snapshot = Snapshot(
    maxLogCount: int,
    switches: map<string, LogLevel>,
    hasChangeToken: bool,
    reloaded: Option<Snapshot>)

  /**
   * The settings the filter-based constructor builds from its maxLogCount:
   * a fresh MemoryLoggerSettings with no switches and no change token.
   */
  function DefaultSettings(maxLogCount: int): (s: Snapshot)
    ensures s.maxLogCount == maxLogCount
    ensures s.switches == map[] && !s.hasChangeToken
  {
    Snapshot(maxLogCount, map[], false, None)
  }
}
