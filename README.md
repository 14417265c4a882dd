# Unciv: Dropbox game storage and map-editor brush logic, in Dafny

This project models two parts of Unciv.

**The Dropbox storage backend** (`DropBox.kt`) stores multiplayer game files.
- `dropboxApi` refuses every request while the rate-limit counter `remainingRateLimitSeconds` is positive.
- Otherwise it builds one POST request and sends it.
- It classifies an error body by the prefix of its `error_summary`: `too_many_requests/`, `path/not_found/` or `path/conflict/file`.
- A `too_many_requests/` error arms the counter with `retry_after` (300 when that is missing or not an `Int`) and starts a one-second timer. Each run of a timer decrements the counter. When the counter reaches 0, the run cancels the timer that `rateLimitTimer` refers to, which is the one started most recently. A timer that an earlier arming left running is never referred to again, so it keeps running.

In the model, HTTP is a `server` function from the request to the response. The timer is an explicit `TimerTick` step. The rate-limit state is also a value, `LimiterState`, so that lemmas can follow it over many ticks. The class `DropBox` holds the same state in fields.

**The map editor's edit tab** (`MapEditorEditTab.kt`) paints tiles.
- `isSimilarEnough` compares two tiles field by field. How many fields it compares depends on an ordered fuzziness level.
- `paintTile` applies the brush to a trial copy and to the tile itself, then normalizes the tile. It reverts the tile to its saved fields when the result is no longer similar enough to the trial copy.
- `applyFrom` does the revert. It copies nine fields but not the position.
- The river tool works click by click. A land click remembers the tile as the start. If an end is already remembered, the river runs; otherwise the closest water tile is remembered as the end and nothing runs yet. A water click remembers the tile as the end and runs the river if a start is remembered. A river that runs forgets both ends.
- The brush slider maps position 6 to floodfill (`brushSize` -1).

Tiles are objects (`TileInfo`) whose fields change in place. Their editable fields form the value `TileContent`. The brush action, the ruleset's land/water test, `normalizeToRuleset`, the river generator's closest-water answer and the area a brush stroke covers are all parameters.

## Model

| member | source | states |
|---|---|---|
| `KotlinInt.ToIntOrNull` | core/src/com/unciv/logic/multiplayer/storage/DropBox.kt:116 | `toIntOrNull` yields a value exactly for an optional `-` or `+` followed by at least one digit whose signed value fits in an `Int`, and that value is the sign times the decimal value of the digits |
| `KotlinInt.IntToString` | core/src/com/unciv/ui/mapeditor/MapEditorEditTab.kt:323 | `Int.toString` starts with `-` exactly for negative numbers and with a digit otherwise (never `+`), then writes the magnitude's digits with no leading zero |
| `KotlinInt.ParseNumeral` | core/src/com/unciv/logic/multiplayer/storage/DropBox.kt:116 | every numeral of an `Int`, written with `-`, `+` or no sign and with any number of leading zeros, parses to its value |
| `KotlinInt.ParseIntToString` | core/src/com/unciv/logic/multiplayer/storage/DropBox.kt:116 | every `Int` written in decimal parses back to itself |
| `MultiplayerStorage.Classify` | core/src/com/unciv/logic/multiplayer/storage/DropBox.kt:51-55 | each of the three outcomes holds exactly when the summary starts with its prefix; the prefixes exclude each other; any other summary is unrecognised |
| `MultiplayerStorage.RetryAfterSeconds` | core/src/com/unciv/logic/multiplayer/storage/DropBox.kt:116 | the arming value is the parsed `retry_after` when that is an `Int`, else 300 (also when the details are absent); it is always in `Int` range |
| `MultiplayerStorage.RetryAfterWrittenAsInt` | core/src/com/unciv/logic/multiplayer/storage/DropBox.kt:116 | a `retry_after` holding the decimal form of any `Int` n arms the limiter with exactly n |
| `MultiplayerStorage.Arm` | core/src/com/unciv/logic/multiplayer/storage/DropBox.kt:115-118 | arming sets the counter to the given seconds and starts one more timer without cancelling any; from an open settled state, positive seconds close the gate and keep the state settled |
| `MultiplayerStorage.Fire` | core/src/com/unciv/logic/multiplayer/storage/DropBox.kt:118-122 | one timer run decrements the counter by exactly 1; the referenced timer stays scheduled unless the new counter is 0 |
| `MultiplayerStorage.CountdownSettled` | core/src/com/unciv/logic/multiplayer/storage/DropBox.kt:118-122 | from a settled state with counter c, after n ≤ c runs the counter is c − n and the timer is scheduled exactly while it is positive |
| `MultiplayerStorage.ArmedGateOpensAfter` | core/src/com/unciv/logic/multiplayer/storage/DropBox.kt:115-122 | after arming with s > 0 the gate refuses for exactly s timer runs, with the timer live before each; after the s-th run the state is the initial one (counter 0, timer cancelled, gate open) |
| `MultiplayerStorage.NonPositiveCountdownNeverStops` | core/src/com/unciv/logic/multiplayer/storage/DropBox.kt:118-122 | with an unbounded counter, a scheduled timer whose counter is ≤ 0 is never cancelled: the counter only decreases |
| `MultiplayerStorage.ZeroRetryTimerRunsForever` | core/src/com/unciv/logic/multiplayer/storage/DropBox.kt:116-122 | arming with `retry_after` 0 leaves the gate open but the timer runs forever, taking the counter to −n after n runs |
| `MultiplayerStorage.BuildRequest` | core/src/com/unciv/logic/multiplayer/storage/DropBox.kt:22-40 | the bearer token is always sent; `Dropbox-API-Arg` and `Content-Type` are present exactly when non-empty, with the given value; no other header is set; a body is written exactly when the data is non-empty |
| `MultiplayerStorage.GameLocation` | core/src/com/unciv/logic/multiplayer/storage/DropBox.kt:68 | the remote path is `/MultiplayerGames/` followed by the file name verbatim |
| `MultiplayerStorage.PrefixesExclusive` | core/src/com/unciv/logic/multiplayer/storage/DropBox.kt:52-54 | no error summary starts with two of the three prefixes, so the order of the `when` branches does not matter |
| `MultiplayerStorage.PathArg` | core/src/com/unciv/logic/multiplayer/storage/DropBox.kt:73 | the argument is the `{"path":"` head, the path verbatim, a closing quote, the overwrite mode exactly when asked for, and a closing brace |
| `MultiplayerStorage.ParsePathArg` | core/src/com/unciv/logic/multiplayer/storage/DropBox.kt:89-94 | a path argument reads back as exactly its path and its overwrite flag, for every path |
| `MultiplayerStorage.UploadArg` | core/src/com/unciv/logic/multiplayer/storage/DropBox.kt:88-95 | the upload argument names the mapped path and asks for overwrite mode exactly when `overwrite` is true |
| `MultiplayerStorage.DeleteRequest` | core/src/com/unciv/logic/multiplayer/storage/DropBox.kt:71-75 | a request to `delete_v2` with a JSON content type, no `Dropbox-API-Arg`, addressing the game file's path without overwrite mode |
| `MultiplayerStorage.MetadataRequest` | core/src/com/unciv/logic/multiplayer/storage/DropBox.kt:79-83 | a request to `get_metadata` with a JSON content type, no `Dropbox-API-Arg`, addressing the game file's path |
| `MultiplayerStorage.UploadRequest` | core/src/com/unciv/logic/multiplayer/storage/DropBox.kt:90-95 | a request to `upload` with an octet-stream content type, the data as body exactly when it is non-empty, and a `Dropbox-API-Arg` addressing the game file's path with the given overwrite flag |
| `MultiplayerStorage.DownloadRequest` | core/src/com/unciv/logic/multiplayer/storage/DropBox.kt:104-105 | a request to `download` with a `text/plain` content type and no body, addressing the path exactly as given |
| `MultiplayerStorage.ExistsRequest` | core/src/com/unciv/logic/multiplayer/storage/DropBox.kt:127-128 | a request to `get_metadata` with a JSON content type, addressing the name as given, without the game folder |
| `MultiplayerStorage.RequestTargets` | core/src/com/unciv/logic/multiplayer/storage/DropBox.kt:70-107 | delete, metadata, upload and load address `/MultiplayerGames/<name>`; only the upload can ask for overwrite mode; `fileExists` addresses the bare name |
| `MultiplayerStorage.ExistsSkipsFolder` | core/src/com/unciv/logic/multiplayer/storage/DropBox.kt:126-128 | `fileExists` never asks for the same path as `getFileMetaData` for the same name |
| `MultiplayerStorage.Reply` | core/src/com/unciv/logic/multiplayer/storage/DropBox.kt:42-57 | a response yields a stream exactly when it succeeded; rate-limit, not-found and conflict failures exactly for their prefixes, the first carrying the new `retry_after`; `null` exactly for an unrecognised summary; an unreadable error body escapes as an exception; never the `!!` failure |
| `MultiplayerStorage.Call` | core/src/com/unciv/logic/multiplayer/storage/DropBox.kt:17-57 | while the counter is positive, a call fails with the current counter, sends nothing and changes nothing; otherwise it sends the request and answers with `Reply`; a rate-limit failure always carries the counter's value after the call; only a sent request answered with `too_many_requests/` changes the limiter, and it arms it |
| `MultiplayerStorage.IgnoreStream` | core/src/com/unciv/logic/multiplayer/storage/DropBox.kt:70-96 | `deleteFile` and `saveFileData` succeed exactly when `dropboxApi` returns, also when it returns `null`, and otherwise rethrow its exception |
| `MultiplayerStorage.NonNull` | core/src/com/unciv/logic/multiplayer/storage/DropBox.kt:103-107 | the `!!` passes a stream through, turns `null` into a failure and rethrows every other failure |
| `MultiplayerStorage.ExistsOf` | core/src/com/unciv/logic/multiplayer/storage/DropBox.kt:126-132 | `fileExists` is false exactly on not-found, true exactly when the call returns (stream or `null`), and rethrows every other failure |
| `MultiplayerStorage.UnrecognisedSummary` | core/src/com/unciv/logic/multiplayer/storage/DropBox.kt:55-57 | an unrecognised error summary leaves the limiter alone; delete and save succeed, `fileExists` answers true, and metadata and download fail on `!!` |
| `MultiplayerStorage.DropBox.constructor` | core/src/com/unciv/logic/multiplayer/storage/DropBox.kt:13-15 | the object starts with counter 0 and no timer |
| `MultiplayerStorage.DropBox.DropboxApi` | core/src/com/unciv/logic/multiplayer/storage/DropBox.kt:17-65 | result, request sent and new limiter state are those of `Call` on the old state and the request built from the arguments |
| `MultiplayerStorage.DropBox.TriggerRateLimit` | core/src/com/unciv/logic/multiplayer/storage/DropBox.kt:115-124 | the new state is the old one armed with `RetryAfterSeconds`; the thrown failure carries the new counter |
| `MultiplayerStorage.DropBox.TimerTick` | core/src/com/unciv/logic/multiplayer/storage/DropBox.kt:118-122 | a run of a live timer takes the state to `Fire` of the old state |
| `MultiplayerStorage.DropBox.DeleteFile` | core/src/com/unciv/logic/multiplayer/storage/DropBox.kt:70-76 | one `Call` with the delete request for the mapped path; the stream is ignored |
| `MultiplayerStorage.DropBox.GetFileMetaData` | core/src/com/unciv/logic/multiplayer/storage/DropBox.kt:78-86 | one `Call` with the metadata request for the mapped path; `null` fails on `!!` |
| `MultiplayerStorage.DropBox.SaveFileData` | core/src/com/unciv/logic/multiplayer/storage/DropBox.kt:88-96 | one `Call` with the upload request (data as body, argument from `UploadArg`); the stream is ignored |
| `MultiplayerStorage.DropBox.LoadFileData` | core/src/com/unciv/logic/multiplayer/storage/DropBox.kt:98-101 | a download of the mapped path |
| `MultiplayerStorage.DropBox.DownloadFile` | core/src/com/unciv/logic/multiplayer/storage/DropBox.kt:103-107 | one `Call` with the download request for the path as given; `null` fails on `!!` |
| `MultiplayerStorage.DropBox.FileExists` | core/src/com/unciv/logic/multiplayer/storage/DropBox.kt:126-132 | one `Call` with a metadata request for the unprefixed name, answered through `ExistsOf` |
| `MapEditor.IsSimilarEnough` | core/src/com/unciv/ui/mapeditor/MapEditorEditTab.kt:293-306 | similar exactly when the tiles agree on road, natural wonder and land/water at every level, on the base terrain up to `BaseTerrain`, on the feature set up to `BaseAndFeatures`, on the resource up to `NoImprovement`, and on the improvement only at `CompleteMatch` |
| `MapEditor.SimilarSharesRoadAndWonder` | core/src/com/unciv/ui/mapeditor/MapEditorEditTab.kt:293-306 | similar tiles have equal road status and natural wonder; a road mismatch is dissimilar at every fuzziness |
| `MapEditor.SimilarReflexive` | core/src/com/unciv/ui/mapeditor/MapEditorEditTab.kt:293-306 | a tile is similar to itself, even with its features listed in another order, at every fuzziness |
| `MapEditor.SimilarSymmetric` | core/src/com/unciv/ui/mapeditor/MapEditorEditTab.kt:293-306 | similarity does not depend on which tile is the receiver |
| `MapEditor.SimilarMonotone` | core/src/com/unciv/ui/mapeditor/MapEditorEditTab.kt:293-306 | tiles similar at one fuzziness are similar at every looser one |
| `MapEditor.WithTransients` | core/src/com/unciv/ui/mapeditor/MapEditorEditTab.kt:319 | recomputing transients sets `isLand` from the base terrain and changes nothing else |
| `MapEditor.TileInfo.SetTerrainTransients` | core/src/com/unciv/ui/mapeditor/MapEditorEditTab.kt:278 | `isLand` is recomputed from the base terrain; every other field and the position are unchanged |
| `MapEditor.TileInfo.ApplyFrom` | core/src/com/unciv/ui/mapeditor/MapEditorEditTab.kt:308-320 | the nine fields (base terrain, features, resource, improvement, wonder, road, three river flags) equal the other tile's, `isLand` follows the copied base terrain, and the position is unchanged |
| `MapEditor.Painted` | core/src/com/unciv/ui/mapeditor/MapEditorEditTab.kt:263-291 | a kept painting is the brushed, transient-updated and normalized tile, and is similar to the trial copy; a rejected one restores all nine saved fields whatever the saved `isLand` was, with `isLand` recomputed from the base terrain, so it equals the saved tile whenever that was consistent |
| `MapEditor.NormalizedPaintIsKept` | core/src/com/unciv/ui/mapeditor/MapEditorEditTab.kt:277-284 | when `normalizeToRuleset` leaves the trial copy unchanged, the painting is kept and equals the trial copy |
| `MapEditor.KeepsPaintMonotone` | core/src/com/unciv/ui/mapeditor/MapEditorEditTab.kt:280-284 | a painting kept at some fuzziness is kept at every looser one |
| `MapEditor.BrushSizeForSlider` | core/src/com/unciv/ui/mapeditor/MapEditorEditTab.kt:76-77 | slider position 6 (above 5) gives floodfill, -1; every other position gives its own value as brush size |
| `MapEditor.SliderForBrushSize` | core/src/com/unciv/ui/mapeditor/MapEditorEditTab.kt:40-43 | the `brushSize` setter puts the slider at 6 for a negative size (floodfill) and at the size itself otherwise |
| `MapEditor.BrushTip` | core/src/com/unciv/ui/mapeditor/MapEditorEditTab.kt:323 | the tip is "Floodfill" above 5, and otherwise exactly `Int.toString` of the position, which reads back as the same number |
| `MapEditor.ClickIgnored` | core/src/com/unciv/ui/mapeditor/MapEditorEditTab.kt:176 | a click is handled exactly when a handler is chosen and the size is floodfill (-1) or between 0 and 5 |
| `MapEditor.SliderBrushRoundTrip` | core/src/com/unciv/ui/mapeditor/MapEditorEditTab.kt:76-78 | every slider position gives a size the click guard accepts; the setter puts the slider back at the same position; the tip is "Floodfill" exactly for floodfill, otherwise exactly `Int.toString` of the size, which parses back to the size |
| `MapEditor.BrushSizeSliderRoundTrip` | core/src/com/unciv/ui/mapeditor/MapEditorEditTab.kt:39-43 | the sizes the keys set (1 to 5 and -1) map to a slider position in 1..6 that maps back to the same size |
| `MapEditor.BrushOutcome` | core/src/com/unciv/ui/mapeditor/MapEditorEditTab.kt:229-237 | direct and river brushes apply the brush unchecked; tile and road brushes go through `paintTile`; the other handler types leave the tile alone |
| `MapEditor.MapEditorEditTab.constructor` | core/src/com/unciv/ui/mapeditor/MapEditorEditTab.kt:33-50 | the tab starts with no handler, brush size 1, `CompleteMatch` and no river ends |
| `MapEditor.MapEditorEditTab.SetBrush` | core/src/com/unciv/ui/mapeditor/MapEditorEditTab.kt:124-132 | the handler type and the brush action are the given ones, nothing else changes |
| `MapEditor.MapEditorEditTab.SetBrushSizeFromSlider` | core/src/com/unciv/ui/mapeditor/MapEditorEditTab.kt:76-79 | the brush size is the slider's mapping and passes the click guard |
| `MapEditor.MapEditorEditTab.TileClickHandler` | core/src/com/unciv/ui/mapeditor/MapEditorEditTab.kt:175-186 | a size below -1 or above 5, or no handler, changes nothing; the river tool chooses river ends and paints nothing; every other handler paints each tile of the area by `BrushOutcome` and chooses no river; no position changes |
| `MapEditor.MapEditorEditTab.SelectRiverFromOrTo` | core/src/com/unciv/ui/mapeditor/MapEditorEditTab.kt:188-203 | land sets the start and runs the river if an end is remembered, else remembers the closest water as the end and runs nothing, although both ends are then known; water sets the end and runs the river if a start is known; a run river leaves both ends null |
| `MapEditor.MapEditorEditTab.PaintRiverFromTo` | core/src/com/unciv/ui/mapeditor/MapEditorEditTab.kt:204-218 | the river runs between the two remembered ends, and afterwards both are null, whether or not generation fails |
| `MapEditor.MapEditorEditTab.PaintTilesWithBrush` | core/src/com/unciv/ui/mapeditor/MapEditorEditTab.kt:220-238 | each tile of the area ends with `BrushOutcome` of its own old fields, by the handler type; positions are unchanged |
| `MapEditor.MapEditorEditTab.DirectPaintTile` | core/src/com/unciv/ui/mapeditor/MapEditorEditTab.kt:241-245 | the tile's fields are the brush applied to its old fields |
| `MapEditor.MapEditorEditTab.PaintTile` | core/src/com/unciv/ui/mapeditor/MapEditorEditTab.kt:263-291 | returns true exactly when the trial copy is similar enough to the normalized tile; the tile then holds `Painted` of its old fields (the normalized painting, or the saved fields restored); the position is unchanged |

## Where the code and the storage contract differ

The storage layer is meant to fail only with not-found, conflict, rate-limited or a generic backend error. The code differs from that, and the model follows the code:
- An error summary with none of the three prefixes makes `dropboxApi` return `null` instead of failing (`DropBox.kt:55-57`). Delete and save then succeed, `fileExists` answers true, and metadata and download fail on `!!` (`DropBox.kt:83`, `106`).
- An error body that cannot be read or parsed throws out of `dropboxApi` (`DropBox.kt:45-49`). The model calls this failure `ErrorBodyUnreadable`.
- `fileExists` asks about the bare name, not the name in the game folder (`DropBox.kt:127-128`).
- A `retry_after` of 0 or less arms a timer that is not cancelled when it should be. The counter falls below 0 and keeps falling until a decrement passes `Int.MIN_VALUE` and wraps to `Int.MAX_VALUE`. From a start c ≤ 0 that is the (c + 2^31 + 1)-th run, about 68 years away for c = 0, but the very first run for `retry_after` −2147483648. After the wrap the gate is closed, and the timer is cancelled once the counter has counted down to 0 again. Arming again while such a timer runs leaves it running next to the new one.

## Left out

- HTTP connections, streams, UTF-8 encoding and JSON (de)serialisation are not modelled. The server is a function from the request to the response. Metadata is returned as the response text; parsing its date (`DropBox.kt:153-155`) is not modelled.
- The bearer token literal is not copied. The `DropBox` object takes the token as a constant.
- The `catch (error: Error)` path (`DropBox.kt:58-62`) is not modelled. It only logs and returns `null`.
- The timer thread is not modelled, and neither are its races with requests. Each run is an explicit `TimerTick` call. The real timer's first run comes with no delay and may decrement the counter before `triggerRateLimit` throws; in the model the thrown value is the armed value.
- MultiplayerStorage.LimiterState: the counter is an unbounded integer, so the model does not capture the wrap-around of the Kotlin `Int`. That wrap happens when a decrement passes `Int.MIN_VALUE`: after c + 2^31 + 1 runs from a start c ≤ 0, and on the first run for `retry_after` −2147483648. After it the real gate is closed and the timer eventually stops, whereas the model's counter stays negative, its gate open and its timer live (`NonPositiveCountdownNeverStops`, `ZeroRetryTimerRunsForever`).
- KotlinInt.ToIntOrNull: only ASCII digits are accepted. Kotlin also accepts other Unicode decimal digits.
- File names are not JSON-escaped, in the source or in the model. `ParseArg` reads a path argument back by position, not as JSON.
- Logging (`println`) is not modelled.
- In the map editor, these are not modelled: widgets, sliders as floats, key bindings, toasts, highlighting, `isDirty`, `naturalWondersNeedRefresh` (`MapEditorEditTab.kt:286-287`), neighbour redraws of road and river painting (`250-253`, `259`), and `activated`/`deactivated` (`134-173`).
- The floodfill BFS and `getTilesInDistance` are not modelled. The area a stroke covers is an input of `TileClickHandler`, which requires it to list distinct tiles.
- `RiverGenerator` is not modelled. `getClosestWaterTile` is an input; `spawnRiver`, its seeding and its caught failure show only as the returned pair of ends.
- `setTerrainTransients` is modelled only as recomputing `isLand` from the base terrain. Its other effects are not modelled, and neither are its exceptions, including the one the trial copy catches (`MapEditorEditTab.kt:269-275`).
- `normalizeToRuleset` and the brush actions are functions of the tile's fields. Brushes that read the tile map, such as starting locations, are not modelled beyond that.
- Tile positions are integer pairs, not float vectors. Nothing here changes them.
