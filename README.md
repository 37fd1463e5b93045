# Tera Settings Saver — a Dafny model of its synchronisation engine

Tera Settings Saver is a game-client add-on. It keeps one JSON settings document per character (`<name>-<server>.json`) and named profile documents in one data directory. It watches the binary packets in which the client receives and saves its account and user settings. Each packet is kept as a hex "packet record": a 4-character length field, a 4-character opcode field and the payload. The engine runs in report mode only. It compares the live settings with the character document, tells the user about drift, and always lets packets through. The `settings` command (`save`, `load`, `saveas`, `reload`, `lock`, `status`) writes and reapplies documents. A lock flag on the character document blocks writes of live state into it.

The model has these parts:

- `codec.dfy` (`Codec`): hex encoding and decoding as Node's `Buffer` does them, `parseRawPacketData`, and rebuilding a buffer from a record. Round-trip lemmas are proved.
- `names.dfy` (`Names`): `sanitizeName` and the character and profile file names.
- `documents.dfy` (`Documents`): documents, the live cache, record equality, and load/save with their coercions. The data directory is a map from path to file content: blank, unreadable, unparseable, or a parsed object.
- `messages.dfy`, `reconcile.dfy`, `reapply.dfy`, `commands.dfy`: these cover what the engine emits, the report-mode notices and the status report, reapplication to the client, and reading the command's arguments.
- `engine.dfy` (`Engine.SettingsSaver`): one class whose fields are the closure variables of `index.js`, plus the data directory (`files`) and an `outbox` of messages and injected buffers. There is one method per hook and subcommand. Each method states its new state in terms of the functions above; `Settings` states, for each subcommand `ParseCommand` can select, the new state that subcommand's method produces. `Valid()` says two things: a bound character path is non-empty, and while a character file is bound the initial sync is marked complete only when both live kinds are present. After a failed `enter_game` no file is bound, and the flag may stay set with an empty live cache, as it does in `index.js`.
- `scenarios.dfy`: sessions driven only through the class contracts. They cover a fresh character file, the first sync, lock then save, loading a missing profile, and save then status.

Behaviour of `index.js` that a reader might not expect:

- Rebuilding a captured packet needs at least 5 bytes, not 4. A 4-byte packet has an empty payload field, and the code treats that as a corrupt record (`Codec.ReconstructParsed`).
- Return to lobby clears only `isInGame` and `initialClientSettingsReceived`. The character path and the live cache stay.
- The client-save handler checks neither the lock nor the character path. It only updates the live cache and reports.
- The `enter_game` catch block does not reset `initialClientSettingsReceived`.
- `sanitizeName` substitutes the placeholder before filtering. A non-empty name made only of disallowed characters therefore becomes the empty string (`Names.SanitizeNameEmptyIff`).
- Profiles and character files share one directory. A profile named `<character>-<server>` is the character file itself (`Names.ProfileCanBeCharacterFile`). So `settings saveas` with that name rewrites the character file unlocked, even while it is locked.
- A file write can fail after the file has been opened, leaving it empty or cut off. After such a failure `settings lock` holds the new lock only in memory, and a failed `settings save` keeps the old document in memory while the file has lost it. At the next `enter_game` the damaged file loads as the default, unlocked document; an emptied file is also rewritten with it (`Documents.FailedWriteLosesDocument`, `Scenarios.LockLostOnFailedWrite`).

## Model

| member | source | states |
|---|---|---|
| `Codec.HexEncode` | index.js:86 | two lower-case hex digits per byte: the text is twice as long as the buffer |
| `Codec.HexDecode` | index.js:114 | at most one byte per two characters, and exactly that many for an even-length all-hex text |
| `Codec.HexDecodeEncode` | index.js:86 | decoding the hex text of any buffer gives that buffer back |
| `Codec.ParseRawPacketData` | index.js:85-92 | concatenating the three fields gives the buffer's hex text |
| `Codec.ParsedFieldsNonEmptyIff` | index.js:85-92 | all three fields are non-empty iff the buffer has at least 5 bytes |
| `Codec.ParsedFieldsAreHeaderAndBody` | index.js:85-92 | with a 4-byte header, the fields are the hex of bytes 0-2, bytes 2-4 and the rest |
| `Codec.Reconstruct` | index.js:109-114 | refuses (None) exactly the records with an empty field |
| `Codec.ReconstructParsed` | index.js:109-114 | a record captured from a buffer of at least 5 bytes is rebuilt into exactly that buffer; a shorter one is refused |
| `Names.StripDisallowed` | index.js:19 | the result contains only letters, digits, `_` and `-`; a clean input is returned unchanged |
| `Names.StripDisallowedAppend` | index.js:19 | filtering a concatenation is the concatenation of the filtered parts, so the kept characters keep their order |
| `Names.StripDisallowedKeepsAllowed` | index.js:19 | every allowed character occurs as often in the result as in the input |
| `Names.StripDisallowedEmptyIff` | index.js:19 | the filter yields the empty string iff no character is allowed |
| `Names.PlaceholderSurvivesFilter` | index.js:19 | `unknown-character` passes the filter unchanged |
| `Names.SanitizeName` | index.js:18-20 | clean output; a missing or empty name gives the placeholder; a clean non-empty name is kept |
| `Names.SanitizeNameEmptyIff` | index.js:18-20 | the result is empty iff the name is non-empty and made only of disallowed characters |
| `Names.SanitizeNameTwice` | index.js:18-20 | sanitising twice equals sanitising once iff the first result is non-empty |
| `Names.ServerIdOrDefault` | index.js:146 | a missing or empty server id becomes `0000` |
| `Names.CharacterFile` | index.js:145-147 | the character file path is never empty |
| `Names.ProfileFile` | index.js:273 | the profile file path is never empty |
| `Names.ProfileCanBeCharacterFile` | index.js:308 | the profile named `<sanitised name>-<server>` is the character's own file |
| `Documents.LiveSettings.Set` | index.js:188 | only the named kind of the live cache changes |
| `Documents.SettingsEqual` | index.js:94-98 | true iff both are null or both are records with identical fields |
| `Documents.SettingsEqualIsEquivalence` | index.js:94-98 | the comparison is reflexive, symmetric and transitive |
| `Documents.Coerce` | index.js:39-43 | lock is true only for a stored boolean true; settings pass through (a falsy stored setting is already None in `RawDocument`) |
| `Documents.LoadSettings` | index.js:22-48 | the default document for no path, a missing, blank, unreadable or unparseable file; otherwise the coerced object |
| `Documents.SaveSettings` | index.js:50-72 | succeeds iff there is a path and the write succeeds; only that file changes; a failed open changes nothing; a write that fails after opening leaves the file empty or cut off |
| `Documents.FailedWriteLosesDocument` | index.js:34-70 | after a write that failed once the file was opened, the file loads as the default, unlocked document |
| `Documents.OpenFailureKeepsFiles` | index.js:65-70 | a write whose open fails reports failure and changes no file |
| `Documents.LoadAfterSave` | index.js:60-65 | a saved document loads back unchanged |
| `Documents.SaveLoadedIsIdempotent` | index.js:22-72 | saving a loaded document and loading again gives the same document |
| `Documents.SaveKeepsOtherLoads` | index.js:65 | a save does not change what any other path loads |
| `Reconcile.InitialSyncNotices` | index.js:191-202 | one "differ" notice for each kind that differs, a "match" exactly when neither differs, and nothing else: two notices when both differ, one otherwise |
| `Reconcile.DriftNotices` | index.js:203-206 | a drift notice for the updated kind iff it differs from the document |
| `Reconcile.ClientChangeNotices` | index.js:222-224 | a notice iff the initial sync is complete and the new value differs from the document |
| `Reconcile.StatusOf` | index.js:335-351 | the report names the character path; populated flags match the document and live cache; equalities are shown iff synced and in game and are true iff equal; pending iff in game and not synced |
| `Reconcile.StatusShowsDrift` | index.js:345-347 | once synced, status reports exactly the differing kinds; a document built from the live settings compares equal on both |
| `Reapply.ApplyOutputs` | index.js:101-121 | a document without the record reports no data; a record that does not rebuild reports corrupt; one that does is injected and then confirmed |
| `Reapply.ApplyInjects` | index.js:102-116 | a buffer is injected iff the record is present and rebuilds, and it is the rebuilt buffer |
| `Reapply.ApplyCapturedPacket` | index.js:108-116 | a record captured from a packet of at least 5 bytes reinjects that packet; a shorter one reports corrupt |
| `Reapply.ReloadOrder` | index.js:124-139 | the injections are Account's followed by User's; every Account output comes before a non-zero pause and every User output after it |
| `Reapply.ReloadCapturedPackets` | index.js:124-139 | two captured packets are reinjected account first, then the pause, then user; the injections are exactly those two buffers |
| `Reapply.ReloadAccountOnly` | index.js:127-138 | an account-only document applies the account packet and reports no user data |
| `Commands.ToLower` | index.js:239 | same length; ASCII letters lower-cased position by position |
| `Commands.ToLowerIsIdempotent` | index.js:239 | lower-casing twice equals lower-casing once |
| `Commands.Argument` | index.js:265 | a missing or empty argument counts as absent |
| `Commands.ParseCommand` | index.js:239-361 | no first argument gives help; each of `save`, `load`, `saveas`, `reload`, `lock`, `status` (in any case) selects its subcommand and only it does; any other word gives help; load/saveas carry the second argument |
| `Commands.ParseCommandIgnoresCase` | index.js:239 | the subcommand name is case-insensitive |
| `Engine.SettingsSaver.constructor` | index.js:77-83 | no path, default document, empty live cache, not in game, not synced |
| `Engine.SettingsSaver.EnterGame` | index.js:143-167 | binds and loads the character file, creates a default one when missing or blank, resets the session; an unreadable file leaves no path and a locked document; afterwards the file loads as the document in memory |
| `Engine.SettingsSaver.TopologyLoaded` | index.js:169-172 | sets in-game and nothing else |
| `Engine.SettingsSaver.ReturnToLobby` | index.js:174-180 | clears in-game and the sync flag and nothing else |
| `Engine.SettingsSaver.OnServerSettings` | index.js:183-215 | ignored unless in game, genuine and bound; caches the record; completes the sync only once both kinds are known; reports first sync or drift; passes through |
| `Engine.SettingsSaver.ReportServerSettings` | index.js:189-206 | marks the sync complete once both kinds are known and appends the first-sync report, or the drift report after sync |
| `Engine.SettingsSaver.OnClientSave` | index.js:217-231 | ignored unless in game and genuine; caches the record; reports departures after sync; never writes; passes through |
| `Engine.SettingsSaver.ApplyToClient` | index.js:101-121 | appends the outputs of applying one kind of the document |
| `Engine.SettingsSaver.ReloadAllToClient` | index.js:124-139 | appends account outputs, the pause, then user outputs |
| `Engine.SettingsSaver.Settings` | index.js:234-361 | refused with a not-ready notice, changing nothing, unless in game with a character file; never changes session fields; otherwise, per selected subcommand: help, status and reload write nothing and keep the document; lock flips and writes the lock; save, load and saveas have the effects their own methods state |
| `Engine.SettingsSaver.SaveCommand` | index.js:242-262 | locked or unsynced: document and files unchanged; otherwise writes the live snapshot, and the document becomes it on success, with both kinds present |
| `Engine.SettingsSaver.LoadCommand` | index.js:264-297 | no change for a missing name, a lock, a missing profile or an empty profile; otherwise the document becomes the profile's settings unlocked and is reapplied |
| `Engine.SettingsSaver.ApplyProfile` | index.js:285-296 | writes the profile's settings, unlocked, to the character file; on success the document becomes them and is reapplied |
| `Engine.SettingsSaver.SaveAsCommand` | index.js:299-319 | after sync, writes the live settings unlocked to the profile file whatever the lock; nothing else |
| `Engine.SettingsSaver.ReloadCommand` | index.js:321-324 | appends a notice and the reload outputs, locked or not |
| `Engine.SettingsSaver.LockCommand` | index.js:326-333 | flips the lock in memory whatever the write result, then writes it; the file afterwards is what `SaveSettings` leaves, so a write that fails after opening loses the stored lock |
| `Engine.SettingsSaver.StatusCommand` | index.js:335-351 | appends the status report and changes nothing else |

## Left out

- Creating the data directory at load time (index.js:10-16), and all real file access. The directory is the `files` map, and how a write ends is the parameter `write` (`Written`, `OpenFailed`, or `WriteFailed` with or without partial text reaching the file). Which failure happens depends on the host and is not modelled.
- JSON text: pretty-printing, parsing, and top-level values that are not objects. Those all load as the default document, as `Unparseable` does here.
- Key order inside a stored record. `JSON.stringify` compares records in key order, while the model compares the three fields. A record from a file with its keys reordered compares equal here and unequal in the source.
- Settings values in a file that are truthy but not a record with three string fields (a number, an array, non-string fields). The model reads a stored setting as a three-string record, with an absent field as the empty string.
- `Commands.ToLower`: lower-cases ASCII letters only. JavaScript's `toLowerCase` also maps other letters.
- The 150 ms timer: it is kept as a `Delay` marker between the account and user outputs. The model applies the user part against the same document. In the source the deferred call reads the document when it fires, and events in between are not modelled.
- Logging, the host's hook registration, `mod.toClient` and the command registry. Injected buffers and messages are appended to `outbox`. The exact wording of messages and the help text are left out; messages are identified by meaning.
- Exceptions in the host's `toClient` or other host calls inside the handlers' `try` blocks. The only exception modelled is the one reachable from this file: reading an unreadable character file at index.js:150.
- Non-buffer packet arguments (index.js:184, index.js:218) and a null `onDiskSettings` (index.js:185, index.js:235). The host always delivers buffers, and this file never sets the document to null.
- The non-object check in `saveSettingsToFile` (index.js:55-58). Every caller passes an object, so the branch cannot be reached.
- The destructor (index.js:365-370).
