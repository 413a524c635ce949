# collab-editor core, modelled in Dafny

collab-editor is a collaborative screenplay editor. Replicas of a Yjs document are kept in step over a Supabase Realtime broadcast channel and saved to a Postgres `documents` row. The text is highlighted by a Lezer grammar for the Fountain screenplay format. This project models the logic of the editor that decides things, and proves what that logic promises:

- **Fountain tokenizer** (`src/parser/tokenizer.js`). `FountainScan.Scan` is a pure specification of one `token` call: which token is accepted, its length, and the new boneyard flag. `FountainTokenizer.FountainTokenizer.Token` is the imperative tokenizer. It has the `inBoneyard` field, while loops over `peek`, and `advance`/`acceptToken` on a Lezer-like input stream. It is proved to do exactly what `Scan` says, and every scanning loop is proved against the function that specifies it. `FountainProperties` proves what each branch promises: markers, title keys and values, scene headings, transitions and character cues.
- **bytea hex codec** (`src/hooks/useYjsPersistence.ts`).
  - `ByteaHex.EncodeBytea` is the `\x…` text that a save stores.
  - `ByteaHex.ParsePostgresHex` is `parsePostgresHex`.
  - The two are proved to round-trip.
- **Load and save** (`src/hooks/useYjsPersistence.ts`). The class `YjsPersistence.Persistence` holds the save status, `lastSaved` and the upserts sent. Each asynchronous operation is split at its `await`.
- **Sync provider** (`src/SupabaseProvider.ts`).
  - `SupabaseSync.React` and `SupabaseSync.Run` say which events put which messages on the channel.
  - The class `SupabaseSync.SupabaseProvider` has one handler per listener. It is proved to follow `Run` over any sequence of events.
  - The lemmas cover: no echo of remote or database updates, nothing sent while disconnected, one `request-sync` on joining, the full-state answer to `request-sync`, and timer ticks after `destroy`.
- **Document access** (`src/hooks/useDocumentAccess.ts`, `src/data/documents.ts`).
  - `DocumentAccess.CheckAccess` is the decision cascade, with every awaited call's outcome as an input.
  - Lemmas characterise exactly when the editor is writable and when access is denied.
  - `DocumentAccess.Rerun` shows that the effect's `cancelled` flag lets only the newest run's decision reach the state.
- **Retry** (`src/utils/retry.ts`). The `withRetry` loop is proved against a recursive specification. `Retry.WithRetryPromises` proves:
  - the first success is returned;
  - there are at most `retries + 1` calls;
  - the last error is rethrown;
  - the delays are `baseDelayMs * 2^k`.
- **Line formatting** (`src/parser/fountainSupport.ts`). `FountainSupport.BuildLineDecorations` fills the line-to-class map over the visible ranges and emits one line decoration per entry. Lemmas show three things:
  - the first classed node on a line wins;
  - each line gets at most one class;
  - the lines come out in order when the nodes are entered in order.

Three facts about the code shape the model:
- a `request-sync` is answered with the full encoded state of the replica;
- broadcast payloads are plain arrays of numbers;
- a save is one debounced upsert of the full state into the document's row. There is no update log, no compaction, and nothing stops a save from running before the load has finished.

Files:
- `wrappers.dfy`: Option and Result.
- `crdt.dfy`: the part of a Yjs document that the code touches.
- `bytea_hex.dfy`, `persistence.dfy`, `sync_provider.dfy`, `document_access.dfy`, `retry.dfy`, `fountain_support.dfy`.
- `fountain_scan.dfy`, `fountain_tokenizer.dfy`, `fountain_properties.dfy`.

## Model

| member | source | states |
|---|---|---|
| FountainScan.Scan | src/parser/tokenizer.js:47-325 | one `token` call as a function, branch by branch in source order: the token accepted, its length, and the new boneyard flag; its properties are the `FountainProperties` lemmas |
| FountainScan.LineStartToken | src/parser/tokenizer.js:114-325 | the checks that apply only at the start of a line, in source order: empty line, `>`, `=`, `===`, title key, scene heading, `!`, then the cue checks |
| FountainScan.PrecededByBlankLine | src/parser/tokenizer.js:205-210 | `isPrecededByBlankLine`: the text start, or a newline two codes back (three when a CR sits between) |
| FountainScan.FollowedByNonBlankLine | src/parser/tokenizer.js:211-218 | `isFollowedByNonBlankLine`: past an optional CR, one newline and spaces, the next code is neither a newline nor the end of input |
| FountainScan.CueToken | src/parser/tokenizer.js:220-254 | the line scan and the caret check: a line without content gives nothing; a trailing `^` marks a dual cue and is trimmed with the spaces before it |
| FountainScan.CueDecision | src/parser/tokenizer.js:256-325 | forced `@`, lower case, transition, then character checks, in that order; its properties are `CharacterDecision`, `TransitionShape` and `LowercaseExcludesCues` |
| FountainScan.Cursor.Peek | src/parser/tokenizer.js:52 | `input.peek(k)` is a UTF-16 code unit, or -1 outside the text |
| FountainScan.LineEnd | src/parser/tokenizer.js:69-72 | the scan stops at the first newline or end of input at or after `k`, and passes only other codes |
| FountainScan.TitleValueEnd | src/parser/tokenizer.js:73-95 | the title-value end is at or after the first line's end, and is itself a line end |
| FountainScan.SkipBlanks | src/parser/tokenizer.js:114-127 | the blank scan passes exactly a run of spaces and tabs and stops at neither |
| FountainScan.SkipSpaces | src/parser/tokenizer.js:101-102 | the space scan passes exactly a run of spaces and stops at a non-space |
| FountainScan.LastColon | src/parser/tokenizer.js:150-159 | `colonPos` is the last colon before the line end, or -1 when the line has none |
| FountainScan.FirstMatch | src/parser/tokenizer.js:172-178 | the prefix chosen is a listed one the buffer starts with; none is chosen only when no listed prefix applies |
| FountainScan.TrimEnd | src/parser/tokenizer.js:247-252 | trimming removes exactly the trailing spaces, down to the token start |
| FountainScan.FirstParen | src/parser/tokenizer.js:236 | `parenPos` is the first `(` of the line, or -1 when there is none |
| FountainTokenizer.InputStream.Advance | src/parser/tokenizer.js:55 | `advance(n)` moves the position forward by `n` |
| FountainTokenizer.InputStream.AcceptToken | src/parser/tokenizer.js:56 | `acceptToken` records a token of the kind ending at the current position |
| FountainTokenizer.InputStream.constructor | src/parser/tokenizer.js:47-48 | the stream starts at `start` with nothing accepted |
| FountainTokenizer.FindLineEnd | src/parser/tokenizer.js:69-72 | the line-end loop computes `LineEnd` |
| FountainTokenizer.ScanTitleValue | src/parser/tokenizer.js:68-95 | the title-value loops compute the end of the first line extended over every following indented line |
| FountainTokenizer.FindSpacesEnd | src/parser/tokenizer.js:101-102 | the space loop computes `SkipSpaces` |
| FountainTokenizer.FindBlanksEnd | src/parser/tokenizer.js:114-127 | the empty-line loop computes `SkipBlanks` |
| FountainTokenizer.ScanTitleKeyLine | src/parser/tokenizer.js:150-159 | the title-key loop computes the line end, the last colon, and whether a non-space precedes the first colon |
| FountainTokenizer.MatchScenePrefix | src/parser/tokenizer.js:165-178 | the buffer and prefix loops find the first listed prefix that the next 10 codes start with |
| FountainTokenizer.TrimTrailingSpaces | src/parser/tokenizer.js:262-267 | the back-up loop computes `TrimEnd` |
| FountainTokenizer.ScanCueLine | src/parser/tokenizer.js:221-240 | the line scan computes the line end, lower case, content end, first `(`, last content code and whether there is content |
| FountainTokenizer.IsFollowedByNonBlankLine | src/parser/tokenizer.js:211-218 | `isFollowedByNonBlankLine` skips an optional CR, one newline and spaces, then tests for a non-blank code |
| FountainTokenizer.ScanCue | src/parser/tokenizer.js:220-325 | the line scan, the caret check and the cue checks give `CueToken` |
| FountainTokenizer.DecideCue | src/parser/tokenizer.js:256-325 | forced `@`, lower case, transition and character checks, in that order, give `CueDecision` |
| FountainTokenizer.ScanLineStart | src/parser/tokenizer.js:114-325 | the start-of-line checks, in source order, give `LineStartToken` |
| FountainTokenizer.FountainTokenizer.constructor | src/parser/tokenizer.js:43-45 | a new tokenizer is outside any boneyard |
| FountainTokenizer.FountainTokenizer.Emit | src/parser/tokenizer.js:55-56 | advance then accept: the token ends `len` codes further on |
| FountainTokenizer.FountainTokenizer.Token | src/parser/tokenizer.js:47-325 | `token` accepts exactly the token `Scan` names and advances over it, or leaves the input alone; the boneyard flag becomes `Scan`'s |
| FountainProperties.BoneyardOpens | src/parser/tokenizer.js:52-59 | outside a boneyard, `/*` is a BoneStart of length 2 and sets the flag |
| FountainProperties.BoneyardCloses | src/parser/tokenizer.js:60-67 | inside a boneyard, `*/` is a BoneEnd of length 2 and clears the flag |
| FountainProperties.CueTokenKinds | src/parser/tokenizer.js:256-325 | the cue decision gives only a Character, a DualCharacter or a Transition |
| FountainProperties.LineStartKinds | src/parser/tokenizer.js:110-325 | the start-of-line checks never give a boneyard marker, a title value or `<` |
| FountainProperties.BoneyardFlagOnlyAtMarkers | src/parser/tokenizer.js:52-67 | the flag changes exactly when a BoneStart or BoneEnd is accepted |
| FountainProperties.TitleValueEndFacts | src/parser/tokenizer.js:73-95 | the continuation stops at end of input or before a line that is not indented, every line it takes is indented, and it never passes the end of input |
| FountainProperties.TitleValueSpansIndentedLines | src/parser/tokenizer.js:68-99 | when a TitleValue can shift (and no marker applies), it runs to the first line end that is not followed by an indented line (a newline or the end of input, never past it), and every line it takes is indented |
| FountainProperties.LessThanMidLine | src/parser/tokenizer.js:100-109 | a `<` followed only by spaces to the line end is a LessThan of length 1, at any column |
| FountainProperties.OffLineStartOnlyInlineTokens | src/parser/tokenizer.js:110-113 | away from a line start only boneyard markers, title values and `<` occur |
| FountainProperties.ScanDefersToLineStart | src/parser/tokenizer.js:110-113 | every other token kind comes from the start-of-line checks |
| FountainProperties.ScanAtLineStart | src/parser/tokenizer.js:110-113 | at a line start with no earlier check applying, `Scan` is the start-of-line decision |
| FountainProperties.EmptyLineConsumesNewline | src/parser/tokenizer.js:114-127 | a blank line is an EmptyLine that includes its newline, and EmptyLine arises in no other way |
| FountainProperties.GreaterThanMarker | src/parser/tokenizer.js:128-132 | `>` at a (non-blank) line start is a GreaterThan of length 1 |
| FountainProperties.SynopsisMarker | src/parser/tokenizer.js:133-137 | `=` not followed by `=` is a SynopsisMark of length 1 |
| FountainProperties.PageBreakMarker | src/parser/tokenizer.js:138-149 | `===` followed by a newline or end of input is a PageBreak of length 3 |
| FountainProperties.NoPrefixAtBang | src/parser/tokenizer.js:165-191 | no scene-heading rule fires on a line starting with `!` |
| FountainProperties.ForceActionMarker | src/parser/tokenizer.js:196-202 | `!` is a ForceActionMark of length 1 unless the line is a title key |
| FountainProperties.TitleKeyLine | src/parser/tokenizer.js:150-164 | a TitleKey only arises through the last colon of a line with content before its first colon |
| FountainProperties.TitleKeyThroughLastColon | src/parser/tokenizer.js:150-164 | every TitleKey `Scan` gives runs through the line's last colon and needs a non-space before the first |
| FountainProperties.TitleKeyEmitted | src/parser/tokenizer.js:150-164 | conversely, such a line is a TitleKey when one can shift and no earlier marker applies |
| FountainProperties.BufferStartsWithText | src/parser/tokenizer.js:166-173 | the 10-code buffer starts with a prefix of at most 10 codes exactly when the text does |
| FountainProperties.FirstMatchIsEarliest | src/parser/tokenizer.js:172-178 | the prefix matched is the earliest in the list that applies |
| FountainProperties.SceneHeadingLine | src/parser/tokenizer.js:165-191 | a SceneHeading comes from a listed prefix, or from a forced `.` when no prefix applies |
| FountainProperties.ScenePrefixIsEarliest | src/parser/tokenizer.js:165-178 | the prefix picked is the first in the list that the text starts with |
| FountainProperties.SceneHeadingShapes | src/parser/tokenizer.js:165-191 | every SceneHeading is a listed prefix's length, or a `.` of length 1 not followed by `.`, space, newline or end of input |
| FountainProperties.CombinedPrefixWins | src/parser/tokenizer.js:165 | a line starting `INT./EXT.` takes all 9 codes, not `INT.` |
| FountainProperties.CueLine | src/parser/tokenizer.js:193-325 | Character, DualCharacter and Transition arise only through the cue decision |
| FountainProperties.CueStageDecides | src/parser/tokenizer.js:193-325 | once past the earlier markers, the result is the cue decision |
| FountainProperties.ScanCueToken | src/parser/tokenizer.js:110-325 | a cue token is produced only at a line start, and is then the cue decision |
| FountainProperties.LowercaseExcludesCues | src/parser/tokenizer.js:275-278 | a line with a lower-case letter is never a Transition or DualCharacter, and is a Character only when forced with `@` |
| FountainProperties.TransitionShape | src/parser/tokenizer.js:280-290 | a Transition covers the whole line without its newline, has no lower case, more than 3 codes, and content ending in `TO:` |
| FountainProperties.TransitionEmitted | src/parser/tokenizer.js:280-290 | conversely, such a line at a cue position is a Transition |
| FountainProperties.CharacterDecision | src/parser/tokenizer.js:258-324 | a Character/DualCharacter needs a blank line before and a non-blank line after, and a valid extension or a leading `@` |
| FountainProperties.CharacterCueShape | src/parser/tokenizer.js:242-324 | a cue token spans the name before the first `(` (or the content), minus trailing spaces; DualCharacter is exactly a non-forced cue ending in `^` |
| FountainProperties.ForcedCharacterCue | src/parser/tokenizer.js:258-273 | a forced `@` cue between a blank and a non-blank line is a Character whatever its case |
| ByteaHex.DigitValue | src/hooks/useYjsPersistence.ts:27 | `parseInt` of one hex digit is below 16 |
| ByteaHex.LowerDigit | src/hooks/useYjsPersistence.ts:68 | `toString(16)` writes a lower-case hex digit whose value is the nibble |
| ByteaHex.ByteToHex | src/hooks/useYjsPersistence.ts:68 | `toString(16).padStart(2, '0')` is the high nibble's digit then the low nibble's |
| ByteaHex.HexBody | src/hooks/useYjsPersistence.ts:67-69 | the joined hex has two digits per byte |
| ByteaHex.HexPairs | src/hooks/useYjsPersistence.ts:24 | `/.{1,2}/g` splits into ⌈n/2⌉ pieces of one or two digits |
| ByteaHex.EncodeBytea | src/hooks/useYjsPersistence.ts:64-71 | the payload a save upserts: `\x` then the hex body; its shape is `EncodeByteaShape` and its inverse `ParseEncodeRoundTrip` |
| ByteaHex.StripPrefix | src/hooks/useYjsPersistence.ts:16 | `cleanHex`: one leading `\x` is removed, any other content is kept |
| ByteaHex.ParsePostgresHex | src/hooks/useYjsPersistence.ts:14-28 | the parse throws exactly when the text after one optional `\x` has a non-hex character; otherwise byte `i` is hex pair `i` |
| ByteaHex.HexPairsAt | src/hooks/useYjsPersistence.ts:24 | piece `i` of the split is the slice `[2i, 2i+2)`, cut short at the end |
| ByteaHex.HexBodyAt | src/hooks/useYjsPersistence.ts:67-69 | digits `2i` and `2i+1` of the body encode byte `i`, high nibble first |
| ByteaHex.EncodeByteaShape | src/hooks/useYjsPersistence.ts:64-71 | the payload is `\x` then exactly two lower-case digits per byte |
| ByteaHex.ParseEncodeRoundTrip | src/hooks/useYjsPersistence.ts:14-28 | parsing the saved payload gives back the saved bytes |
| ByteaHex.ParseEmptyBody | src/hooks/useYjsPersistence.ts:24-25 | an empty body, with or without `\x`, parses to no bytes |
| ByteaHex.ParseStripsOnePrefix | src/hooks/useYjsPersistence.ts:16-21 | only one `\x` is stripped: any content opening with two is invalid, whatever follows |
| ByteaHex.ParseIgnoresDigitCase | src/hooks/useYjsPersistence.ts:19-27 | upper- and lower-case digits read alike: writing the digits of any content in lower case does not change what it parses to |
| ByteaHex.ParseLoneLastDigit | src/hooks/useYjsPersistence.ts:24-27 | for every valid body with an odd number of digits, the parse succeeds with one more byte than there are full pairs, and the last byte is the value of the lone last digit |
| ByteaHex.ParseOddLengthExample | src/hooks/useYjsPersistence.ts:24-27 | worked example: `\xAbC` parses to the bytes 0xAB and 0xC |
| Crdt.Doc.constructor | src/hooks/useYjsPersistence.ts:9 | a new replica has applied nothing |
| Crdt.Doc.ApplyUpdate | src/hooks/useYjsPersistence.ts:46 | `Y.applyUpdate` records the update with its origin when the replica accepts the bytes, and otherwise throws and changes nothing |
| YjsPersistence.HasContent | src/hooks/useYjsPersistence.ts:42 | `data?.content` is truthy: a row whose content is present and not empty |
| YjsPersistence.FinishLoadOutcome | src/hooks/useYjsPersistence.ts:40-55 | the load ends `error` exactly on a query error, invalid hex, or non-empty bytes the replica rejects, else `saved`; bytes are applied exactly when parsed, non-empty and accepted |
| YjsPersistence.LoadAfterSave | src/hooks/useYjsPersistence.ts:42-55 | loading the text a save stored applies exactly the saved state and ends `saved` (nothing applied if empty); only a replica that rejects those bytes ends in `error` |
| YjsPersistence.NewDocumentLoads | src/hooks/useYjsPersistence.ts:48-51 | no row or empty content loads as `saved` and applies nothing |
| YjsPersistence.Persistence.constructor | src/hooks/useYjsPersistence.ts:10-11 | status `idle`, no last-saved time |
| YjsPersistence.Persistence.BeginLoad | src/hooks/useYjsPersistence.ts:32 | a load first sets `loading` |
| YjsPersistence.Persistence.FinishLoad | src/hooks/useYjsPersistence.ts:40-55 | the status and the replica change as `FinishLoadOutcome` says for this replica, with origin `db-load` |
| YjsPersistence.Persistence.BeginSave | src/hooks/useYjsPersistence.ts:60-75 | a save sets `saving` and upserts the hex of the full encoded state under the document id |
| YjsPersistence.Persistence.FinishSave | src/hooks/useYjsPersistence.ts:77-84 | success records the time and `saved`; failure gives `error` and keeps the old time |
| YjsPersistence.SaveThenLoad | src/hooks/useYjsPersistence.ts:31-87 | a save followed by a load of its row hands another replica exactly the saved state, as `db-load`, and ends `saved`, unless that replica rejects the bytes (then `error`, nothing applied) |
| SupabaseSync.ToWire | src/SupabaseProvider.ts:79 | `Array.from` keeps the length and gives numbers in 0..255 |
| SupabaseSync.FromWire | src/SupabaseProvider.ts:21 | `new Uint8Array(payload)` keeps the length |
| SupabaseSync.WireRoundTrip | src/SupabaseProvider.ts:75-81 | bytes sent as numbers are rebuilt exactly on receipt |
| SupabaseSync.FromWireWraps | src/SupabaseProvider.ts:21 | every number is reduced modulo 256: numbers in 0..255 are kept, others wrap instead of being rejected |
| SupabaseSync.DocUpdateMessages | src/SupabaseProvider.ts:51-55 | a change is broadcast (once, decoding back to the update) iff its origin is neither `remote` nor `db-load` and the provider is connected |
| SupabaseSync.ChangedClients | src/SupabaseProvider.ts:60 | the changed clients are the added, then updated, then removed ones |
| SupabaseSync.React | src/SupabaseProvider.ts:13-89 | what one event does to the connection flag, the replica and the timer, and the messages it sends, per listener; its properties are the lemmas below |
| SupabaseSync.Run | src/SupabaseProvider.ts:13-89 | a sequence of events handled in order: the final state and every message sent, in order |
| SupabaseSync.RunAppend | src/SupabaseProvider.ts:13-72 | running two event sequences in turn is running their concatenation |
| SupabaseSync.HistoryRecordsEveryUpdate | src/SupabaseProvider.ts:19-55 | every local update and every peer update the replica accepts reaches it, in order, connected or not |
| SupabaseSync.AwarenessPayloadsExactly | src/SupabaseProvider.ts:24-28 | every inbound awareness payload of a trace, decoded, is among those handed to awareness, and every one handed over comes from such an event |
| SupabaseSync.ForeignReactSilent | src/SupabaseProvider.ts:19-55 | reacting to one update from a peer or from the database sends nothing, whether or not the replica accepts it |
| SupabaseSync.ForeignUpdatesNeverBroadcast | src/SupabaseProvider.ts:51-55 | updates from peers and from the database are never broadcast |
| SupabaseSync.ForeignUpdateSilent | src/SupabaseProvider.ts:19-55 | wherever it occurs in a trace, an update from a peer or the database adds no message to those of the events around it |
| SupabaseSync.SyncUpdatesHaveLocalSource | src/SupabaseProvider.ts:29-55 | every `sync-update` sent carries a local update or answers a `request-sync` |
| SupabaseSync.DisconnectedSendsNothing | src/SupabaseProvider.ts:29-71 | until `SUBSCRIBED`, nothing is sent and nothing is queued |
| SupabaseSync.ReconnectSendsOnlyRequest | src/SupabaseProvider.ts:36-48 | joining sends exactly one `request-sync`, and the offline changes are in the replica |
| SupabaseSync.RequestSyncAnswer | src/SupabaseProvider.ts:29-35 | a `request-sync` is answered, only when connected, with one `sync-update` that decodes to the full state |
| SupabaseSync.AwarenessBroadcast | src/SupabaseProvider.ts:58-63 | presence changes are sent iff connected, covering added, updated and removed clients |
| SupabaseSync.DestroyStopsResync | src/SupabaseProvider.ts:83-89 | after `destroy` the timer never sends; replica and connection flag are unchanged |
| SupabaseSync.SupabaseProvider.constructor | src/SupabaseProvider.ts:9-13 | a new provider is not connected, its timer is set, nothing is sent |
| SupabaseSync.SupabaseProvider.Broadcast | src/SupabaseProvider.ts:75-81 | `broadcast` sends the bytes as a number array under the event |
| SupabaseSync.SupabaseProvider.OnDocUpdate | src/SupabaseProvider.ts:51-55 | the doc listener sends what `DocUpdateMessages` says |
| SupabaseSync.SupabaseProvider.ApplyLocal | src/SupabaseProvider.ts:51-55 | a local change updates the replica and the channel as `React` says |
| SupabaseSync.SupabaseProvider.OnSyncUpdate | src/SupabaseProvider.ts:19-23 | a peer's update is applied as `remote` if the replica accepts it (otherwise the handler throws and nothing changes), and nothing is sent |
| SupabaseSync.SupabaseProvider.OnAwarenessUpdate | src/SupabaseProvider.ts:24-28 | a peer's presence is handed to the awareness instance |
| SupabaseSync.SupabaseProvider.OnRequestSync | src/SupabaseProvider.ts:29-35 | the `request-sync` handler sends what `React` says |
| SupabaseSync.SupabaseProvider.OnSubscribeStatus | src/SupabaseProvider.ts:36-48 | the subscribe callback sets the flag and sends as `React` says |
| SupabaseSync.SupabaseProvider.OnAwarenessChange | src/SupabaseProvider.ts:58-63 | the awareness listener sends what `React` says |
| SupabaseSync.SupabaseProvider.OnResyncTick | src/SupabaseProvider.ts:67-71 | the timer sends `request-sync` only when set, connected and more than one state is known |
| SupabaseSync.SupabaseProvider.Destroy | src/SupabaseProvider.ts:83-89 | `destroy` clears the timer, leaves the channel and destroys awareness, keeping the replica |
| SupabaseSync.SupabaseProvider.Handle | src/SupabaseProvider.ts:13-89 | each event's handler does what `React` says; only a peer's presence reaches the awareness instance, and only `destroy` leaves the channel and destroys awareness |
| SupabaseSync.SupabaseProvider.HandleAll | src/SupabaseProvider.ts:13-89 | any sequence of events does what `Run` says; the awareness payloads of the trace are handed over in order (`AwarenessPayloads`), and the channel stays subscribed and awareness live exactly until a `destroy` |
| DocumentAccess.PermissionForUser | src/data/documents.ts:56-70 | a failed permission query reads as no permission; otherwise the row's level |
| DocumentAccess.CheckAccess | src/hooks/useDocumentAccess.ts:31-123 | the decision always loads the permission; denied implies read-only; the owner writes; sign-in is asked only with nothing else set |
| DocumentAccess.WritableExactly | src/hooks/useDocumentAccess.ts:36-110 | writable iff sign-in is asked, or the user is the owner, or the document is public `editor`, or the explicit level is `editor` |
| DocumentAccess.DeniedExactly | src/hooks/useDocumentAccess.ts:36-121 | denied iff a fetch threw, or a user with an email opens a missing document |
| DocumentAccess.MissingDocument | src/hooks/useDocumentAccess.ts:36-59 | a missing document asks a visitor without email to sign in, and denies one with email |
| DocumentAccess.OwnerFirst | src/hooks/useDocumentAccess.ts:61-73 | the owner is recognised before anything else and writes |
| DocumentAccess.AnonymousReadsOnly | src/hooks/useDocumentAccess.ts:88-99 | a non-owner without email on a non-editor document reads only |
| DocumentAccess.ExplicitPermission | src/hooks/useDocumentAccess.ts:101-110 | with an explicit lookup, only level `editor` writes; a failed lookup reads only |
| DocumentAccess.AccessCell.constructor | src/hooks/useDocumentAccess.ts:20-26 | the state starts all false |
| DocumentAccess.AccessCheck.constructor | src/hooks/useDocumentAccess.ts:29 | a run starts not cancelled |
| DocumentAccess.AccessCheck.Begin | src/hooks/useDocumentAccess.ts:32 | a run first clears `permissionLoaded`, keeping the rest |
| DocumentAccess.AccessCheck.Finish | src/hooks/useDocumentAccess.ts:36-122 | a run writes the decision unless it was cancelled |
| DocumentAccess.AccessCheck.Cleanup | src/hooks/useDocumentAccess.ts:126-128 | cleanup cancels the run |
| DocumentAccess.Rerun | src/hooks/useDocumentAccess.ts:28-129 | however a stale run and a new run finish, the state ends with the new run's decision |
| Retry.OrDefault | src/utils/retry.ts:7-8 | a given option is used, a missing one takes its default |
| Retry.Pow2 | src/utils/retry.ts:16 | `Math.pow(2, k)` is at least 1 |
| Retry.Schedule | src/utils/retry.ts:16 | the schedule has one delay per attempt, the `k`-th being `baseDelayMs * 2^k` |
| Retry.RunFrom | src/utils/retry.ts:11-20 | the loop from attempt `attempt` on, as a recursion: stop at a success or after the last allowed attempt, else sleep `baseDelayMs * 2^attempt` and try again |
| Retry.WithRetrySpec | src/utils/retry.ts:3-21 | `withRetry` with its defaults filled in, run from attempt 0; its properties are `WithRetryPromises` |
| Retry.RunFromFacts | src/utils/retry.ts:11-20 | from any attempt: the run stops at the first success, fails only after the last allowed call, and sleeps the schedule |
| Retry.WithRetryPromises | src/utils/retry.ts:3-21 | first success returned, at most `retries + 1` calls, the last error rethrown, delay `k` is `baseDelayMs * 2^k` |
| Retry.DefaultsSleep600 | src/utils/retry.ts:7-8 | with the defaults, an always-failing call is made 3 times with sleeps of 200 and 400 ms |
| Retry.WithRetry | src/utils/retry.ts:3-21 | the loop returns exactly what the recursive specification says |
| FountainSupport.LineClassByType | src/parser/fountainSupport.ts:10-21 | a node type has a class iff it is one of the ten listed, and the class is one of the eight |
| FountainSupport.SharedClasses | src/parser/fountainSupport.ts:11-15 | forced and plain action share a class, as do single and dual cues; tokenizer names have none |
| FountainSupport.Enter | src/parser/fountainSupport.ts:30-38 | the `enter` callback: a node whose type has a class adds its line with that class, unless the line already has one |
| FountainSupport.LineClasses | src/parser/fountainSupport.ts:26-41 | the `lineClasses` map, in insertion order, after entering the nodes in order; its properties are `FirstVisitWins`, `OneClassPerLine` and `LinesInOrder` |
| FountainSupport.ClassOf | src/parser/fountainSupport.ts:35 | the map holds a class for a line iff it has an entry for it |
| FountainSupport.FirstClassAppend | src/parser/fountainSupport.ts:30-38 | entering one more node changes the reference class only for a line that had none |
| FountainSupport.ClassOfAppend | src/parser/fountainSupport.ts:35-37 | adding an entry does not change a line already in the map |
| FountainSupport.FirstVisitWins | src/parser/fountainSupport.ts:27-41 | each line's class is that of the first classed node on it |
| FountainSupport.OneClassPerLine | src/parser/fountainSupport.ts:35-37 | no line appears twice in the map |
| FountainSupport.LinesInOrder | src/parser/fountainSupport.ts:42-44 | nodes entered in line order give lines in increasing order, as the range builder needs |
| FountainSupport.LinesFromNodes | src/parser/fountainSupport.ts:34-37 | every line in the map is the line of an entered node |
| FountainSupport.DecorationsFor | src/parser/fountainSupport.ts:42-44 | one zero-width decoration per entry, in order, at the line start with its class |
| FountainSupport.BuildLineDecorations | src/parser/fountainSupport.ts:23-48 | the loops give the decorations of the first-wins map over all visible ranges |
| FountainSupport.LineFormatting.constructor | src/parser/fountainSupport.ts:53-55 | the plugin starts with the decorations of the view |
| FountainSupport.LineFormatting.Update | src/parser/fountainSupport.ts:56-60 | decorations are rebuilt iff the document or the viewport changed |

## Left out

- Yjs internals are not modelled: merging, the binary update format, and what `encodeStateAsUpdate` produces. A replica is the sequence of updates applied to it, and the encoder is a foreign function.
- The awareness protocol (`Awareness`, `encodeAwarenessUpdate`, `applyAwarenessUpdate`) is foreign. A remote presence update is recorded as handed over. The awareness `update` event it may then raise (which the provider re-broadcasts when connected) is a separate `AwarenessChange` event, not raised automatically.
- Supabase queries, the Realtime channel and `auth.getUser` are not modelled. Their outcomes are inputs (`LoadResponse`, `Fetch`, `PermissionQuery`, `Status`), and the messages sent are recorded in order.
- Timers are events, not modelled in time: the 2-second lodash debounce of `saveDocument`, the 30-second resync interval, and the sleeps in `withRetry`. `BeginSave` is the debounced call firing, and `withRetry` reports the delays it would sleep.
- `new Date()` is the `now` parameter of `FinishSave`. Console and logger output is left out.
- React is not modelled: state batching, re-render timing and `useCallback` identities. A state cell is a class field written in place.
- `SupabaseSync.SupabaseProvider.Destroy`: it does not model `channel.unsubscribe()` stopping delivery, or the leave message that `awareness.destroy()` may emit. Events delivered after `destroy` still reach the handlers. The doc `update` listener and `_isConnected` stay as they are, as in the code.
- `Crdt.Doc.ApplyUpdate`: which bytes Yjs accepts as an update is a foreign predicate (`accepts`). A rejected update is taken to leave the replica unchanged. Partial integration before a late decoding error is not modelled.
- `SupabaseSync.FromWire`: a payload is a sequence of integers. Non-integer or non-numeric JSON values are not modelled.
- `FountainTokenizer.FountainTokenizer.Token`: `stack.canShift(TitleValue)` and `stack.canShift(TitleKey)` are boolean inputs. The Lezer parse stack and grammar (`fountain-parser.js`) are not part of this model. A code unit is an integer below 0x10000.
- `FountainSupport.BuildLineDecorations`: the syntax tree and `view.state.doc.lineAt` are foreign. A visible range is the sequence of nodes its iteration enters, each with the start of its line. The `RangeSetBuilder` sorted-order requirement is proved only when the nodes come in line order (`FountainSupport.LinesInOrder`).
- `lineClasses` is a JavaScript `Map`, iterated in insertion order. It is modelled as a sequence of entries in that order.
- `src/data/documents.ts` is modelled only for `fetchPermissionForUser`. The other queries are inputs.
- `Retry.WithRetry`: `fn` is modelled by the outcome of its `k`-th call. Thrown values that are not errors, and cancellation, are not modelled. The options are whole numbers, so three cases are not modelled: a fractional `retries`, which allows one call more than its ceiling; an infinite or NaN `retries`, which retries forever; and fractional delays.
