# MemoryLoggerProvider in Dafny

A model of `MemoryLoggerProvider`, the registry and filter core of the
in-memory log sink of `iflight.Logging`. The provider keeps one `MemoryLogger`
per category name. It gives each logger a filter resolved from its dotted name
against a settings snapshot. When the snapshot's change token fires, it swaps in
the reloaded settings, recomputes every logger's filter in place, and
re-registers its callback only if the new snapshot has a token.

Files (each module imports only the modules it uses):

- `Wrappers.dfy`: `Option` stands in for a nullable reference and `Result` for a call that may throw.
- `Settings.dfy`: `LogLevel` is a newtype over the enum's values 0..6, with Trace..Critical and `NoLogging` for `LogLevel.None`. `Snapshot` is an immutable `IMemoryLoggerSettings`: `MaxLogCount`, the `TryGetSwitch` table as a map, whether `ChangeToken` is non-null, and what `Reload()` returns.
- `CandidateKeys.dfy`: the key walk `GetKeyPrefixes`. `KeyPrefixes` is its recursive definition and `GetKeyPrefixes` is its loop. Lemmas pin down the shape of the sequence.
- `Filters.dfy`: filters as the datatype `Explicit | AtLeast(level) | DenyAll` with an evaluation predicate `Eval`. Also `GetFilter` and its first-match search.
- `Provider.dfy`: the classes `MemoryLogger` (name, mutable filter, capacity) and `MemoryLoggerProvider` (the logger map, the explicit filter, the current settings, and whether a reload callback is registered). `Valid()` states the provider's invariant: every logger is stored under its own name; its filter is what `GetFilter` gives that name under the current settings; and a reload callback is registered exactly when the current settings are non-null and have a change token.

Edge cases of the code that the model reproduces:

- A name starting with `.` cuts down to `""` and never reaches `"Default"`.
- `CreateLoggerImplementation` reads `_settings.MaxLogCount` even after a reload has made `_settings` null. So creating a new logger in that state throws (`NullReference`) and adds nothing.
- An already registered name is still returned without error.
- A name whose first dot-segment is `Default` (`"Default"` itself, or `"Default.X"`) has the key `"Default"` looked up twice: once as its last walk key and once as the closing fallback.

## Model

| member | source | states |
|---|---|---|
| `Settings.DefaultSettings` | Logging.Memory/src/Logging.Memory/MemoryLoggerProvider.cs:19-22 | the settings the filter constructor builds carry the given MaxLogCount, no switches and no change token |
| `CandidateKeys.LastIndexOf` | Logging.Memory/src/Logging.Memory/MemoryLoggerProvider.cs:95-96 | the result is -1 exactly when the character is absent; otherwise it is an index holding the character with no occurrence after it |
| `CandidateKeys.Cut` | Logging.Memory/src/Logging.Memory/MemoryLoggerProvider.cs:95-101 | one truncation step gives a strictly shorter prefix of the key, ending just before a '.' that has no '.' after it |
| `CandidateKeys.KeyPrefixesLength` | Logging.Memory/src/Logging.Memory/MemoryLoggerProvider.cs:92-102 | the key sequence is empty exactly for the empty name; otherwise it starts with the name; "Default" is appended once, as the last element, exactly when the name is non-empty and does not start with '.' |
| `CandidateKeys.KeyPrefixesArePrefixes` | Logging.Memory/src/Logging.Memory/MemoryLoggerProvider.cs:92-101 | every key before the trailing "Default" is a non-empty prefix of the name |
| `CandidateKeys.KeyPrefixesChained` | Logging.Memory/src/Logging.Memory/MemoryLoggerProvider.cs:92-101 | each walk key after the first is the previous key cut before its last '.', so the keys strictly shrink and the walk terminates |
| `CandidateKeys.KeyPrefixesLastWalkKey` | Logging.Memory/src/Logging.Memory/MemoryLoggerProvider.cs:92-102 | the last walk key has no '.' exactly when "Default" follows; otherwise its truncation is "" and the walk stops silently |
| `CandidateKeys.EndsWithDefaultIff` | Logging.Memory/src/Logging.Memory/MemoryLoggerProvider.cs:92-102 | the sequence ends with "Default" if and only if the name is non-empty and does not start with '.' |
| `CandidateKeys.WalkKeysEndBeforeDot` | Logging.Memory/src/Logging.Memory/MemoryLoggerProvider.cs:95-101 | every walk key after the first is a prefix of the name that stops just before one of the name's '.' characters |
| `CandidateKeys.DefaultOnlyAtEnd` | Logging.Memory/src/Logging.Memory/MemoryLoggerProvider.cs:94-99 | unless the name's first dot-segment is "Default", any occurrence of "Default" is the last element, and only when the walk reached a dot-free key |
| `CandidateKeys.DefaultLookedUpTwiceExample` | Logging.Memory/src/Logging.Memory/MemoryLoggerProvider.cs:94-98 | "Default.X" yields "Default.X", then "Default" as a walk key, then "Default" again as the fallback |
| `CandidateKeys.GetKeyPrefixes` | Logging.Memory/src/Logging.Memory/MemoryLoggerProvider.cs:90-103 | the loop that reassigns the name yields exactly the sequence KeyPrefixes defines |
| `Filters.FirstMatch` | Logging.Memory/src/Logging.Memory/MemoryLoggerProvider.cs:77-87 | the search yields a level filter or deny-all; deny-all exactly when no key is in the switch table; a level filter's level comes from the table |
| `Filters.FirstMatchAt` | Logging.Memory/src/Logging.Memory/MemoryLoggerProvider.cs:77-84 | when key i is the first key found in the table, the result is "level >= its level"; later matches are ignored |
| `Filters.GetFilter` | Logging.Memory/src/Logging.Memory/MemoryLoggerProvider.cs:68-88 | a non-null explicit filter is returned verbatim; otherwise null settings give deny-all, and non-null settings give deny-all exactly when no candidate key is configured, a level filter otherwise |
| `Filters.ExplicitFilterWins` | Logging.Memory/src/Logging.Memory/MemoryLoggerProvider.cs:70-73 | with an explicit filter, the resolved filter accepts exactly what that filter accepts, whatever the name and the settings |
| `Filters.MostSpecificKeyWins` | Logging.Memory/src/Logging.Memory/MemoryLoggerProvider.cs:75-84 | without an explicit filter, the first configured candidate key decides, and the filter accepts exactly the levels at or above its level |
| `Filters.FullNameWins` | Logging.Memory/src/Logging.Memory/MemoryLoggerProvider.cs:77-83 | a name configured by its full text gets that level, whatever its ancestors or "Default" say |
| `Filters.NoMatchDeniesAll` | Logging.Memory/src/Logging.Memory/MemoryLoggerProvider.cs:75-87 | without an explicit filter, null settings or settings holding none of the candidate keys reject every level |
| `Filters.EmptyNameDenied` | Logging.Memory/src/Logging.Memory/MemoryLoggerProvider.cs:92 | without an explicit filter, the empty name is always denied |
| `Filters.AncestorBeforeDefaultExample` | Logging.Memory/src/Logging.Memory/MemoryLoggerProvider.cs:75-84 | with {"A.B": Information, "Default": Warning}, "A.B.C" resolves to "level >= Information" |
| `Filters.DenyAllExample` | Logging.Memory/src/Logging.Memory/MemoryLoggerProvider.cs:87 | with an empty table, "X.Y" rejects even Critical |
| `Filters.ExplicitOverrideExample` | Logging.Memory/src/Logging.Memory/MemoryLoggerProvider.cs:70-73 | an explicit "level >= Warning" filter rejects Information for "X", although the settings set "X" to Trace |
| `Provider.MemoryLogger.constructor` | Logging.Memory/src/Logging.Memory/MemoryLoggerProvider.cs:65 | a logger holds the name, filter and capacity it was created with |
| `Provider.MemoryLoggerProvider.WithFilter` | Logging.Memory/src/Logging.Memory/MemoryLoggerProvider.cs:16-23 | the filter constructor keeps the explicit filter, builds settings from maxLogCount (200 when omitted), starts with no loggers and registers no callback |
| `Provider.MemoryLoggerProvider.WithSettings` | Logging.Memory/src/Logging.Memory/MemoryLoggerProvider.cs:32-37 | the settings constructor has no explicit filter and keeps the snapshot; it registers the callback exactly when the snapshot has a change token |
| `Provider.MemoryLoggerProvider.FromSettings` | Logging.Memory/src/Logging.Memory/MemoryLoggerProvider.cs:25-38 | null settings fail with an argument-null error; non-null settings give a fresh, valid provider, armed exactly when the snapshot has a token |
| `Provider.MemoryLoggerProvider.CreateLoggerImplementation` | Logging.Memory/src/Logging.Memory/MemoryLoggerProvider.cs:63-66 | a fresh logger with the name, GetFilter(name, settings) and the settings' MaxLogCount; a null-reference failure exactly when the settings are null |
| `Provider.MemoryLoggerProvider.CreateLogger` | Logging.Memory/src/Logging.Memory/MemoryLoggerProvider.cs:58-61 | get-or-add: a registered name returns its logger with nothing changed; otherwise the fresh logger is added under the name; a failed creation adds nothing; existing entries and settings never change, and the invariant is kept |
| `Provider.MemoryLoggerProvider.OnConfigurationReload` | Logging.Memory/src/Logging.Memory/MemoryLoggerProvider.cs:40-56 | the registry is unchanged; the settings become Reload() of the old ones; every logger's filter is GetFilter of its name under the new settings (deny-all when they are null and there is no explicit filter); re-armed exactly when the new settings are non-null with a token |
| `Provider.MemoryLoggerProvider.ConfigurationChanged` | Logging.Memory/src/Logging.Memory/MemoryLoggerProvider.cs:52-55 | a change reloads only while a callback is registered; once unarmed, a change alters neither settings nor any filter |
| `Provider.MemoryLoggerProvider.Dispose` | Logging.Memory/src/Logging.Memory/MemoryLoggerProvider.cs:107-109 | disposing changes nothing |
| `Provider.CreateLoggerTwice` | Logging.Memory/src/Logging.Memory/MemoryLoggerProvider.cs:58-61 | two creations with one name return the same logger and leave one entry; the settings are unchanged and that logger's filter is still GetFilter of the name under them |
| `Provider.ReloadPropagationExample` | Logging.Memory/src/Logging.Memory/MemoryLoggerProvider.cs:40-56 | a logger for "A" accepts Warning before a reload that sets "A" to Error and rejects it afterwards; after a later change, with no token left, the settings are still the reloaded ones and the same logger still accepts Error, so no second reload happened |

## Left out

- `MemoryLogger`'s record buffer, its eviction and its `Log` path: that class is not part of this model. A logger is only its name, filter and capacity.
- Concurrency: the atomicity of `ConcurrentDictionary.GetOrAdd` and races between logging and filter replacement. The registry and reload are modelled as sequential steps.
- Change-token mechanics: `RegisterChangeCallback` and the thread the callback runs on. Registration is the boolean `armed`, and a firing token is the method `ConfigurationChanged`.
- `IMemoryLoggerSettings` and `MemoryLoggerSettings` implementations: `TryGetSwitch` is a lookup in a map, and `Reload()` is a value stored in the snapshot. This means a modelled reload chain is finite. The settings the filter constructor builds are assumed to have no switches and no change token.
- Exceptions thrown by `Reload()`: the code has no recovery for them, so they are not modelled.
- Null category names: strings in the model are never null, and `GetOrAdd` would reject a null key before any of this code runs.
- The explicit filter is an opaque function value. Whether it is identical to the one passed in is stated by equality in specifications only.
- `GetKeyPrefixes` is lazy in the source, and `GetFilter` stops pulling keys at the first match. Because the walk has no side effects, the model computes the whole sequence first.
