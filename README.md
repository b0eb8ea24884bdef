# forked-daapd library core in Dafny

This project models the parts of the forked-daapd media server that read the
library's playlists, look for artwork, take metadata from a Shairport pipe,
hold the web-interface settings, and extend the library database.

- **Smart playlists** (`smartpl.dfy`, module `SmartPlaylist`). This models
  the driver that reads a `.smartpl` file. It fetches or creates the
  playlist record, runs the query compiler, and keeps the title and query
  only when the compiler produced both without errors. It then updates or
  inserts the record.
- **Plain playlists** (`playlist_scan.dfy`, module `PlaylistScan`). This
  models the `.m3u`/`.pls` scanner:
  - the extension test and the "unchanged" test;
  - the per-line loop: right trim, `#EXTINF` metadata, the entry path of
    each format, the path sanity test, URL or library file;
  - the library lookup that picks the best-matching file;
  - the entry and addition counters.
- **Artwork** (`artwork.dfy`, module `Artwork`). This models:
  - the rescale arithmetic;
  - the recognition of artwork file names;
  - the candidate names tried next to a track and in an album directory
    and its parent;
  - the ordered walk over the group and item artwork sources;
  - the rules that decide whether a result may be cached.
- **Pipe input** (`pipe.dfy`, module `PipeInput`). This models:
  - the pipe lists and the reconciliation of the watch list with the
    library's pipes;
  - the packing of DMAP codes;
  - the handling of a Shairport metadata item (progress, picture, text
    fields);
  - the framing of the metadata stream into `<item>…</item>` frames.
- **Settings** (`settings.dfy`, module `Settings`). This models the
  static registry of web-interface settings, lookup by index and by name,
  and the typed getters and setters over the admin store.
- **SQLite extension** (`sqlext.dfy`, module `SqlExt`). This models the
  `daap_no_zero` scalar function and the `DAAP` collation.
- `common.dfy` (module `Common`) holds the C string primitives these build
  on: `strchr`, `strrchr`, `strstr`, `strcasecmp`, `isspace`, `isalnum`,
  `snprintf` truncation and the C remainder.

The following are function-valued parameters of the model:
- the file system (`access`, `fopen`, `stat`);
- the library database and the playlist store;
- the ANTLR query compiler;
- libunistring;
- the XML/base64 decoder.

A class stands for each structure the source updates in place:
- `PlaylistInfo`, `MediaFileInfo`, `ArtworkCtx`, `PipeList`,
  `InputMetadata`, `MetadataBuffer`;
- the path buffer that `process_regular_file` rewrites is an `array<char>`.

Each method is proved against a specification function, and the lemmas
state the properties of those functions.

## Model

| member | source | states |
|---|---|---|
| SqlExt.DaapNoZero | sqlext/sqlext.c:34-60 | not two arguments gives the count error; two arguments not both integers give the type error; otherwise the result is the new value unless it is zero, then the old value |
| SqlExt.NoZeroIdempotent | sqlext/sqlext.c:56-59 | the result is zero only when both values are; applying it again with its own result as the old value changes nothing |
| SqlExt.DaapCollate | sqlext/sqlext.c:62-96 | an undecodable first character makes the strings equal; a leading letter sorts before a leading non-letter; otherwise the case-insensitive compare decides, and its failure gives 0 |
| SqlExt.CollateAntisymmetric | sqlext/sqlext.c:81-95 | swapping the arguments flips the sign of the collation whenever the case-insensitive compare does |
| SqlExt.AlphaSortsFirst | sqlext/sqlext.c:81-88 | a name beginning with a letter sorts strictly before one that does not, on either side |
| Settings.CategoriesCount | src/settings.c:40-44 | the number of categories is the size of the static table, one |
| Settings.CategoryGetByIndex | src/settings.c:46-52 | NULL exactly for an index below 0 or at or past the count; otherwise that table entry |
| Settings.FirstMatch | src/settings.c:59-63 | the first name equal to the key ignoring ASCII case; none exactly when no name matches |
| Settings.CategoryGet | src/settings.c:54-66 | the first category whose name matches ignoring case, or NULL |
| Settings.OptionCount | src/settings.c:68-72 | the number of options of the category |
| Settings.OptionGetByIndex | src/settings.c:74-81 | NULL exactly for a NULL category or an index out of range; otherwise that option |
| Settings.OptionGet | src/settings.c:83-98 | NULL for a NULL category or name; otherwise the first option whose name matches ignoring case, or NULL |
| Settings.GetInt | src/settings.c:100-107 | 0 unless the option is an int option, whose stored value is returned |
| Settings.GetBool | src/settings.c:110-117 | true exactly when the option is a bool option whose stored int is positive |
| Settings.GetStr | src/settings.c:119-126 | NULL unless the option is a string option, whose stored string is returned |
| Settings.SetInt | src/settings.c:128-135 | -1 unless the option is an int option; then the store's answer |
| Settings.SetBool | src/settings.c:137-144 | -1 unless the option is a bool option; then it stores 1 or 0 |
| Settings.SetStr | src/settings.c:146-153 | -1 unless the option is a string option; then the store's answer |
| Settings.BoolRoundTrip | src/settings.c:110-144 | a bool option read back through GetBool after SetBool wrote it, with the store keeping the integer SetBool sends, gives the value set |
| Settings.GettersExclusive | src/settings.c:100-153 | only the getter of the option's own type reaches the store; every setter refuses a category entry |
| Settings.TablesNamesDistinct | src/settings.c:28-37 | each table entry is found by its own name, and lookup by name and by index agree on every entry |
| SmartPlaylist.PlaylistInfo.Create | src/filescanner_smartpl.c:186-201 | a new record is zeroed, then gets the path, the virtual path and the smart type |
| SmartPlaylist.VirtualPath | src/filescanner_smartpl.c:196-200 | "/file:" and the path, cut to PATH_MAX, then cut at its last '.' if it has one |
| SmartPlaylist.VirtualPathShape | src/filescanner_smartpl.c:196-200 | for a path with a single '.' before its extension, the virtual path is "/file:" and the path without the extension |
| SmartPlaylist.ParseFile | src/filescanner_smartpl.c:43-171 | succeeds exactly when every compiler stage was created, neither parser counted an error, and title and query came back; only then are title and query stored; the created stages are released in reverse order |
| SmartPlaylist.ParserCheckMissesNullParser | src/filescanner_smartpl.c:89-97 | the guard after parser creation tests the token stream, which is never NULL there, so it never fires |
| SmartPlaylist.NullParserFails | src/filescanner_smartpl.c:89-97 | with the guard on the parser, a parser that could not be created fails the parse, and only the token stream, lexer and input are released |
| SmartPlaylist.ScanSmartpl | src/filescanner_smartpl.c:173-236 | a failed parse stores nothing; otherwise the fetched or new record, with the compiled title and query, is updated when it has an id and added when it does not |
| PlaylistScan.FormatBySuffix | src/library/filescanner_playlist.c:220-229 | a file is M3U exactly when its name ends in ".m3u" and PLS exactly when it ends in ".pls", in any case |
| PlaylistScan.IsUnchanged | src/library/filescanner_playlist.c:239-243 | a skipped playlist is strictly older than its db_timestamp; a missing mtime or equal times count as a modification |
| PlaylistScan.Trimmed | src/library/filescanner_playlist.c:315-320 | a prefix of the line whose removed tail is all whitespace and which does not end in whitespace |
| PlaylistScan.RTrim | src/library/filescanner_playlist.c:313-320 | the loop leaves the trimmed line |
| PlaylistScan.ParseExtinf | src/library/filescanner_playlist.c:46-73 | metadata is found only on a line starting with "#EXTINF:" |
| PlaylistScan.ExtinfWhen | src/library/filescanner_playlist.c:51-56 | a line is metadata exactly when it starts with "#EXTINF:" and has a character after its first ',' |
| PlaylistScan.ExtinfFields | src/library/filescanner_playlist.c:59-72 | the artist is the text after the first ',' up to its first " -"; the title starts 3 characters after that " -" and is empty when nothing remains there or there is no " -" |
| PlaylistScan.ExtinfGet | src/library/filescanner_playlist.c:46-73 | on a metadata line, mfi holds exactly the new artist and title; otherwise mfi is untouched |
| PlaylistScan.EntryPath | src/library/filescanner_playlist.c:328-336 | in M3U the whole line is the entry |
| PlaylistScan.EntryPathMeaning | src/library/filescanner_playlist.c:329-331 | a PLS line has an entry exactly when it starts with "file" in any case and holds a '='; the entry is the text after the first '=' |
| PlaylistScan.CallsWellFormed | src/library/filescanner_playlist.c:338-346 | every entry handed on starts with a letter, digit, '/' or '.' and ends in a non-space; it goes to the URL handler exactly when it has an http:// or https:// scheme; in PLS no metadata is ever attached |
| PlaylistScan.Chosen | src/library/filescanner_playlist.c:156-191 | with a single result that file wins; otherwise a file wins exactly when its score is positive and strictly above every other, and then it is that file |
| PlaylistScan.PickWinner | src/library/filescanner_playlist.c:156-183 | the fetch loop leaves the winner Chosen describes |
| PlaylistScan.Slashed | src/library/filescanner_playlist.c:129-134 | same length, every backslash becomes '/', every other character unchanged |
| PlaylistScan.FixBackslashes | src/library/filescanner_playlist.c:129-134 | the array is rewritten in place to its slashed form |
| PlaylistScan.ProcessRegularFile | src/library/filescanner_playlist.c:116-199 | the path is slashed in place; 0 exactly when a library file was chosen by the query on the slashed path, and that file is the one added |
| PlaylistScan.HandleLine | src/library/filescanner_playlist.c:311-361 | one pass of the loop makes the calls one step of the scan specifies and keeps mfi equal to the pending metadata |
| PlaylistScan.ScanLines | src/library/filescanner_playlist.c:306-362 | the handler calls are those of the line-by-line scan; ntracks counts them and nadded counts those that returned 0 |
| PlaylistScan.ScanPlaylist | src/library/filescanner_playlist.c:201-376 | a non-playlist is ignored; a known playlist with a non-zero mtime strictly older than its db_timestamp is skipped; a failed insert stops; otherwise a known playlist is cleared, a file that cannot be opened ends the scan (after the clearing), and the lines are scanned |
| Artwork.RescaleCalculate | src/artwork.c:350-390 | -1 with the size unchanged exactly when a size is zero, the box is not positive, or the image already fits; otherwise the target fits the box with an even width and the pinned side is the box's |
| Artwork.RescaleSettles | src/artwork.c:350-390 | a rescaled size fits the box, so rescaling it again reports that nothing is needed |
| Artwork.FileIsArtwork | src/artwork.c:1327-1360 | 1 exactly when the file name is "basename.ext" for a configured basename and a cover extension, fitting PATH_MAX |
| Artwork.OwnStem | src/artwork.c:753-757 | the track path without the text from its last '.' on |
| Artwork.TryCandidates | src/artwork.c:761-780 | the index of the first candidate that fits the buffer and exists, or the count when there is none |
| Artwork.OwnGet | src/artwork.c:736-785 | an over-long track path is an error; otherwise the first existing "stem.ext" is loaded, or nothing is found |
| Artwork.DirCandidateAt | src/artwork.c:550-574 | candidates are tried basename by basename, each with every extension in order |
| Artwork.ParentCandidatesOfDir | src/artwork.c:576-595 | after a failed search of the directory "parent/name", the buffer splits back into that directory and its name, so the parent-directory candidates are "parent/name/name.ext" |
| Artwork.TryBasename | src/artwork.c:552-569 | the extensions are tried in order for one basename; the first usable candidate stops the loop, otherwise the buffer holds the last attempt, cut to PATH_MAX |
| Artwork.SearchBasenames | src/artwork.c:550-574 | found exactly when some directory candidate is usable, and then it is the first; otherwise the buffer holds the last attempt |
| Artwork.DirImage | src/artwork.c:519-618 | an over-long directory is an error; no basenames finds nothing; else the first usable directory candidate is loaded; else the parent split of the buffer decides between error, none and the first usable parent candidate |
| Artwork.WalkFrom | src/artwork.c:1126-1159 | a hit names a consulted source at or after the start and carries that source's positive answer |
| Artwork.WalkMeaning | src/artwork.c:1126-1159 | a hit is the first consulted source with a positive answer; an abort comes from a consulted source; a miss means every consulted source failed, flagged exactly when one forbade caching a miss or returned an error |
| Artwork.ItemSourcesByKind | src/artwork.c:174-230 | files ask cache, embedded and own; HTTP asks stream and playlist own; Spotify asks cache and both Spotify sources; pipes ask pipe |
| Artwork.WalkSources | src/artwork.c:1126-1159 | the source loop ends as the walk specifies and leaves the cache setting the walk's outcome gives |
| Artwork.ItemsFrom | src/artwork.c:1108-1171 | the row-by-row search of process_items returns an image format or -1 |
| Artwork.ItemsCacheRules | src/artwork.c:1092-1172 | process_items returns a format or -1; a hit is cached only as success, a miss only when the setting already allowed it; a fetch error forbids caching |
| Artwork.ItemsKeepsPersistentId | src/artwork.c:1110-1112 | a set persistent id is kept, and an unset one takes the first row's song album id |
| Artwork.ProcessItems | src/artwork.c:1092-1172 | a query that cannot start returns -1 and forbids caching; otherwise the result, cache setting and persistent id are those the row-by-row walk specifies |
| Artwork.GroupCacheGet | src/artwork.c:625-643 | a failed lookup is an error, no entry is none, a cached miss aborts, and a cached hit gives its format |
| Artwork.CachedMissStopsGroupSearch | src/artwork.c:1187-1207 | a cached miss stops the group search at the cache source and leaves caching off |
| Artwork.ProcessGroup | src/artwork.c:1174-1218 | no persistent id returns -1 without caching; a group hit returns its format; an abort returns -1 without caching; a miss falls through to the album's items |
| PipeInput.IndexOfIdMeaning | src/inputs/pipe.c:281-293 | the found pipe is the first with the id, and none is found exactly when no pipe has it |
| PipeInput.FindPipe | src/inputs/pipe.c:281-293 | the first pipe in the list with the id, or NULL |
| PipeInput.PipeList.Add | src/inputs/pipe.c:249-254 | the pipe goes to the head of the list |
| PipeInput.PipeList.Remove | src/inputs/pipe.c:256-279 | the first pipe with the id is unlinked and nothing else changes |
| PipeInput.RemoveUndoesAdd | src/inputs/pipe.c:249-279 | removing a pipe just added gives back the list before |
| PipeInput.RemoveKeepsOthers | src/inputs/pipe.c:256-279 | with distinct ids, removal leaves no pipe with the id, one pipe fewer if there was one, and every other pipe |
| PipeInput.KeptFacts | src/inputs/pipe.c:682-693 | the first loop keeps exactly the watched pipes whose id is still in the library, and ids stay distinct |
| PipeInput.AdmitSuffix | src/inputs/pipe.c:695-718 | the second loop only adds pipes in front of the list |
| PipeInput.AdmitHeads | src/inputs/pipe.c:695-718 | every added pipe is a library pipe at an index up to PIPE_MAX_WATCH |
| PipeInput.AdmitDistinct | src/inputs/pipe.c:695-718 | the second loop keeps the ids distinct |
| PipeInput.AdmitCovers | src/inputs/pipe.c:695-718 | every library pipe at an index up to PIPE_MAX_WATCH is watched afterwards |
| PipeInput.WatchUpdateFacts | src/inputs/pipe.c:668-722 | after the update the ids are distinct; every watched pipe is in the library; watched pipes still in the library stay; every library pipe up to PIPE_MAX_WATCH is watched; every other watched pipe was watched before |
| PipeInput.DropGone | src/inputs/pipe.c:682-693 | the list walk removes each watched pipe that left the library |
| PipeInput.AdmitNew | src/inputs/pipe.c:695-718 | the list walk adds the new library pipes as the second loop specifies |
| PipeInput.WatchUpdate | src/inputs/pipe.c:668-722 | the watch list becomes the reconciled list |
| PipeInput.DmapVal | src/inputs/pipe.c:296-300 | the four ASCII characters packed big-endian fit in 31 bits |
| PipeInput.DmapRoundTrip | src/inputs/pipe.c:296-300 | unpacking a packed code gives the four characters back |
| PipeInput.DmapInjective | src/inputs/pipe.c:296-300 | two codes packing to the same value are the same code |
| PipeInput.Dispatch | src/inputs/pipe.c:502-517 | an item's data is acted on exactly when its code is one of the seven handled codes |
| PipeInput.DispatchByName | src/inputs/pipe.c:502-517 | asal, asar, minm and asgn set album, artist, title and genre; prgr, pvol and PICT go to their handlers; every other code is ignored |
| PipeInput.Tokens | src/inputs/pipe.c:347-357 | strtok_r on '/': every token is non-empty and holds no '/' |
| PipeInput.ProgressUpdate | src/inputs/pipe.c:338-366 | only position and length change, only when three non-zero fields are read, each only when its field lies after the start |
| PipeInput.ProgressOfFields | src/inputs/pipe.c:347-365 | for "start/pos/end" the position becomes (pos - start) * 1000 / rate in unsigned 64-bit arithmetic, and the length likewise when end lies after start |
| PipeInput.HandleProgress | src/inputs/pipe.c:338-366 | the metadata becomes what ProgressUpdate gives |
| PipeInput.PictureExt | src/inputs/pipe.c:413-430 | ".jpg" exactly for a JPEG signature and ".png" exactly for a PNG signature, both only for sizes from 2 to PIPE_PICTURE_SIZE_MAX |
| PipeInput.PictureUpdate | src/inputs/pipe.c:407-452 | only the artwork URL changes; it is set exactly when the picture is accepted and stored, to "file:" and the stored path |
| PipeInput.HandlePicture | src/inputs/pipe.c:407-452 | the metadata becomes what PictureUpdate gives |
| PipeInput.ItemRet | src/inputs/pipe.c:455-570 | 1 exactly for an item with type, code, a handled code and data; -1 exactly for an unparsable item, a missing type or code, or bad base64 under a handled code; 0 otherwise |
| PipeInput.ItemUpdate | src/inputs/pipe.c:519-561 | an item that does not return 1 changes nothing |
| PipeInput.HandleItem | src/inputs/pipe.c:455-570 | returns ItemRet and leaves the metadata ItemUpdate gives |
| PipeInput.FrameLenIsSearch | src/inputs/pipe.c:579-583 | a frame ends right after the first "</item>" in the buffer |
| PipeInput.ExtractItem | src/inputs/pipe.c:572-592 | without "</item>" nothing is taken and the buffer is unchanged; otherwise the first frame is taken off the front |
| PipeInput.FramesCover | src/inputs/pipe.c:594-613 | the frames followed by the remainder are exactly the buffer |
| PipeInput.RestHasNoEnd | src/inputs/pipe.c:594-613 | the remainder holds no "</item>" |
| PipeInput.FramesEnd | src/inputs/pipe.c:594-613 | every frame ends with its first "</item>" |
| PipeInput.Drain | src/inputs/pipe.c:594-613 | the result is -1, 0 or 1, and what is left of the buffer is a suffix of it: frames are only taken from the front |
| PipeInput.DrainOutcome | src/inputs/pipe.c:594-613 | -1 exactly when some frame's item is in error; otherwise every frame is consumed and 1 exactly when some item carried metadata |
| PipeInput.MetadataHandle | src/inputs/pipe.c:594-613 | the result, metadata and buffer are those the frame-by-frame drain gives |

## Left out

- Artwork.RescaleCalculate: the floating-point product that sizes the side not pinned to the box is a parameter (`scaled`), because the model has no floating point.
- The `artwork_get` image loader, the cache, the embedded/stream/pipe/Spotify/playlist source handlers, `artwork_get_item`/`artwork_get_group` and the evbuffer output are parameters or are out of scope. The walk receives each handler's answer.
- The `DATA_KIND_*` values (FILE=0, HTTP=1, SPOTIFY=2, PIPE=3) are written as constants, because the database header is not part of this model.
- PlaylistScan.PickWinner: the path-match score from `parent_dir`/`strcasecmp` is an input of each row. `parent_dir`, `filename_from_path` and `strip_extension` live in a utility file that is not part of this model.
- PlaylistScan.ProcessRegularFile: the query filter's `db_snprintf` failure and `db_query_start` failure are one "no result" case of the query parameter.
- PlaylistScan.ScanLines: `fgets` splitting an over-long line at PATH_MAX is not modelled. Each line is given whole.
- The `extinf` flag is not modelled. It only decides whether a final `free_mfi` runs.
- The transaction batching every 200 entries, the radio-station ping of an unchanged playlist, and the `stat` failure are not modelled. The `stat` failure is folded into the "unreadable" outcome.
- SmartPlaylist.ParseFile: the guard after parser creation is modelled as corrected (it tests the parser), not as written at src/filescanner_smartpl.c:92, where it tests the token stream and lets a NULL parser reach the `playlist()` call at line 99; the as-written guard is ParserCheckAsWritten (see Findings).
- SmartPlaylist: the ANTLR lexer, parser and tree walker are a `Pipeline` value saying which objects were created, the error counts, and the title and query.
- SmartPlaylist.ScanSmartpl: database fetch, add and update are the fetched record and the returned store call. The add/update failure log is left out.
- PipeInput.PipeList: pipe lists are value sequences in a class field. Node aliasing, `pipe_free`, and the event/watch registration are not modelled.
- PipeInput.WatchUpdate: the cap test `count > PIPE_MAX_WATCH` admits pipes at indexes 0 to PIPE_MAX_WATCH, which is five pipes. It is modelled as written.
- Threads, file descriptors, libevent events, the player commands, `handle_volume` (floating point) and the Spotify/stream input modules are not modelled.
- PipeInput.ItemRet: the mxml parse and base64 decode are the `ParsedItem` value.
- PipeInput.PictureUpdate: the tmpfile write is the `store` parameter.
- PipeInput.ProgressUpdate: `safe_atou64` is the `toU64` parameter. Its failure is not modelled, because the source then reads an uninitialised value. The store into the `pos_ms`/`len_ms` fields is not narrowed to their C width.
- PipeInput.DmapVal: codes are ASCII. Sign extension of a `char` above 127 is not modelled.
- SqlExt.DaapCollate: `u8_mbtoucr`, `uc_is_alpha` and `u8_casecmp` are parameters. `sqlite3_extension_init` (registration) is not modelled.
- Artwork.RescaleCalculate: the cross products `width * max_h` and `height * max_w` are C `int` products that can overflow (undefined behaviour); the model computes them exactly.
- Settings: the admin store (`db_admin_*`) is function parameters. Integer overflow of C `int` results is not modelled.

## Findings

| source | as written | input that shows it | evidently intended | confidence | as-written member | corrected member |
|---|---|---|---|---|---|---|
| src/filescanner_smartpl.c:92 | after `SMARTPLParserNew` the code tests `tstream` (already known non-NULL) instead of `psr` | a file for which the parser cannot be created while the token stream exists: the guard does not fire and the NULL parser is used | test the parser just created and fail the parse, releasing token stream, lexer and input | not executed | SmartPlaylist.ParserCheckMissesNullParser | SmartPlaylist.NullParserFails |
