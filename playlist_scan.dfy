/** The plain-playlist scanner (.m3u and .pls files): decide whether a
    playlist file is to be read at all, then read it line by line, trimming
    each line on the right, collecting #EXTINF metadata, extracting the
    path of each entry, and handing URLs and library files to their
    handlers while counting entries and successful additions.

    The playlist store, the library query that lists files with a given
    file name, and the handler that adds an internet stream are parameters;
    fgets is represented by the sequence of lines it returns. */
module PlaylistScan {
  import opened Common

  /** PLAYLIST_PLS and PLAYLIST_M3U */
  datatype Format = Pls | M3u

  /** The extension test of scan_playlist: the text from the last '.' must be
      ".m3u" or ".pls", ignoring ASCII case. */
  function PlaylistFormat(file: string): (r: Option<Format>)
  {
    match LastIndexOf(file, '.')
    case None => None
    case Some(i) =>
      if EqualsIgnoreCase(file[i..], ".m3u") then Some(M3u)
      else if EqualsIgnoreCase(file[i..], ".pls") then Some(Pls)
      else None
  }

  /** A file is scanned as M3U exactly when its name ends in ".m3u" and as
      PLS exactly when it ends in ".pls", in any mix of case. */
  lemma FormatBySuffix(file: string)
    ensures PlaylistFormat(file) == Some(M3u) <==>
              |file| >= 4 && EqualsIgnoreCase(file[|file| - 4..], ".m3u")
    ensures PlaylistFormat(file) == Some(Pls) <==>
              |file| >= 4 && EqualsIgnoreCase(file[|file| - 4..], ".pls")
  {
    if |file| >= 4 && file[|file| - 4] == '.' {
      assert file[|file| - 4..][1..] == file[|file| - 3..];
      assert '.' !in file[|file| - 3..] ==> LastIndexOf(file, '.') == Some(|file| - 4);
    }
    match LastIndexOf(file, '.')
    case None =>
    case Some(i) =>
      if EqualsIgnoreCase(file[i..], ".m3u") || EqualsIgnoreCase(file[i..], ".pls") {
        assert |file[i..]| == 4;
      }
  }

  /** The unchanged test of scan_playlist: a known playlist is skipped only
      when the file has a modification time and the database copy is
      strictly newer; equal times count as a modification. */
  predicate IsUnchanged(mtime: int, dbTimestamp: int)
    ensures IsUnchanged(mtime, dbTimestamp) ==> mtime < dbTimestamp
    ensures mtime == 0 || dbTimestamp == mtime ==> !IsUnchanged(mtime, dbTimestamp)
  {
    mtime != 0 && dbTimestamp > mtime
  }

  /** The trimmed line: trailing C whitespace removed. */
  function Trimmed(s: string): (r: string)
    ensures |r| <= |s| && r == s[..|r|]
    ensures forall k :: |r| <= k < |s| ==> IsSpace(s[k])
    ensures |r| > 0 ==> !IsSpace(r[|r| - 1])
  {
    if |s| > 0 && IsSpace(s[|s| - 1]) then
      var t := Trimmed(s[..|s| - 1]);
      assert s[..|s| - 1][..|t|] == s[..|t|];
      t
    else s
  }

  /** The rtrim loop of scan_playlist, which shortens the line while its last
      character is whitespace. */
  method RTrim(buf: string) returns (line: string)
    ensures line == Trimmed(buf)
  {
    var len := |buf|;
    assert buf[..len] == buf;
    while len > 0 && IsSpace(buf[len - 1])
      invariant 0 <= len <= |buf|
      invariant Trimmed(buf[..len]) == Trimmed(buf)
    {
      assert buf[..len][..len - 1] == buf[..len - 1];
      len := len - 1;
    }
    assert buf[..len] == Trimmed(buf[..len]);
    line := buf[..len];
  }

  /** Artist and title read from an #EXTINF line. */
  datatype ExtInf = ExtInf(artist: string, title: string)

  /** What extinf_get stores: the line must start with "#EXTINF:" and have a
      ',' followed by at least one character. The artist is the text after
      the first ',' up to the first " -"; the title starts 3 characters
      after that " -" and is empty unless more than 3 characters remain. */
  function ParseExtinf(line: string): (r: Option<ExtInf>)
    ensures r.Some? ==> HasPrefix(line, "#EXTINF:")
  {
    if !HasPrefix(line, "#EXTINF:") then None
    else match IndexOf(line, ',')
      case None => None
      case Some(c) =>
        if |line| - c < 2 then None
        else
          var rest := line[c + 1..];
          match Find(rest, " -")
          case None => Some(ExtInf(rest, ""))
          case Some(d) => Some(ExtInf(rest[..d], if |rest| - d > 3 then rest[d + 3..] else ""))
  }

  /** A line is metadata exactly when it starts with "#EXTINF:" and has a
      character after its first ','. */
  lemma ExtinfWhen(line: string)
    ensures ParseExtinf(line).Some? <==> HasPrefix(line, "#EXTINF:") && IndexOf(line, ',').Some? &&
                                         IndexOf(line, ',').value + 1 < |line|
  {
  }

  /** The artist is the longest prefix of the text after the first ','
      holding no " -"; when the artist stops short, a " -" follows it and
      the title is what comes 3 characters after the artist, if anything;
      otherwise the title is empty. */
  lemma ExtinfFields(line: string)
    requires ParseExtinf(line).Some?
    ensures var r := ParseExtinf(line).value;
            var rest := line[IndexOf(line, ',').value + 1..];
            HasPrefix(rest, r.artist) &&
            (forall k :: 0 <= k <= |r.artist| ==> !OccursAt(r.artist, " -", k)) &&
            (|r.artist| == |rest| ==> r.title == "") &&
            (|r.artist| < |rest| ==>
               OccursAt(rest, " -", |r.artist|) &&
               r.title == (if |rest| - |r.artist| > 3 then rest[|r.artist| + 3..] else ""))
  {
    var rest := line[IndexOf(line, ',').value + 1..];
    match Find(rest, " -")
    case None =>
    case Some(d) =>
      BeforeFirst(rest, " -", d);
  }

  /** The metadata fields of the scanner's struct media_file_info. */
  class MediaFileInfo {
    var artist: Option<string>
    var title: Option<string>

    constructor ()
      ensures artist.None? && title.None?
    {
      artist, title := None, None;
    }

    /** free_mfi(mfi, 1): release and zero the contents. */
    method Clear()
      modifies this
      ensures artist.None? && title.None?
    {
      artist, title := None, None;
    }
  }

  /** extinf_get: on a metadata line, replace the contents of mfi with the
      artist and title and report 1 (the caller also sets extinf); on any
      other line leave mfi untouched and report 0. */
  method ExtinfGet(line: string, mfi: MediaFileInfo) returns (found: bool)
    modifies mfi
    ensures found <==> ParseExtinf(line).Some?
    ensures found ==> mfi.artist == Some(ParseExtinf(line).value.artist) &&
                      mfi.title == Some(ParseExtinf(line).value.title)
    ensures !found ==> mfi.artist == old(mfi.artist) && mfi.title == old(mfi.title)
  {
    var info := ParseExtinf(line);
    if info.None? {
      return false;
    }
    mfi.Clear();
    mfi.artist := Some(info.value.artist);
    mfi.title := Some(info.value.title);
    found := true;
  }

  /** The path carried by a non-empty line that is not metadata: for PLS the
      text after the first '=' of a line starting with "file" (any case),
      for M3U the whole line. */
  function EntryPath(format: Format, line: string): (r: Option<string>)
    ensures format == M3u ==> r == Some(line)
  {
    match format
    case M3u => Some(line)
    case Pls =>
      if !HasPrefixIgnoreCase(line, "file") then None
      else match IndexOf(line, '=')
        case None => None
        case Some(e) => Some(line[e + 1..])
  }

  /** A PLS line has an entry exactly when it starts with "file" in any case
      and holds a '='; the entry is everything after the first '='. */
  lemma EntryPathMeaning(line: string)
    ensures EntryPath(Pls, line).Some? <==> HasPrefixIgnoreCase(line, "file") && '=' in line
    ensures EntryPath(Pls, line).Some? ==>
              exists e :: 0 <= e < |line| && line[e] == '=' && '=' !in line[..e] &&
                          EntryPath(Pls, line).value == line[e + 1..]
  {
    if HasPrefixIgnoreCase(line, "file") && IndexOf(line, '=').Some? {
      var e := IndexOf(line, '=').value;
      assert line[e] == '=' && '=' !in line[..e];
    }
  }

  /** The first character of a path must be a letter, a digit, '/' or '.'. */
  predicate SanePathStart(path: string)
  {
    |path| > 0 && (IsAlnum(path[0]) || path[0] == '/' || path[0] == '.')
  }

  predicate IsUrl(path: string)
  {
    HasPrefixIgnoreCase(path, "http://") || HasPrefixIgnoreCase(path, "https://")
  }

  /** One handler call of the scan: a URL with the metadata collected for it,
      or a path to look up in the library. */
  datatype Call = UrlCall(path: string, artist: Option<string>, title: Option<string>)
                | FileCall(path: string)

  /** The state the line loop carries between lines: pending #EXTINF
      metadata and the calls made so far. */
  datatype ScanState = ScanState(meta: Option<ExtInf>, calls: seq<Call>)

  function CallFor(path: string, meta: Option<ExtInf>): Call
  {
    if IsUrl(path) then
      UrlCall(path, if meta.Some? then Some(meta.value.artist) else None,
                    if meta.Some? then Some(meta.value.title) else None)
    else FileCall(path)
  }

  /** What one line read from the playlist does to the scan state. */
  function Step(format: Format, st: ScanState, raw: string): ScanState
  {
    var line := Trimmed(raw);
    if |line| < 1 then st
    else if format == M3u && ParseExtinf(line).Some? then st.(meta := ParseExtinf(line))
    else match EntryPath(format, line)
      case None => st
      case Some(path) =>
        if !SanePathStart(path) then st
        else ScanState(None, st.calls + [CallFor(path, st.meta)])
  }

  /** The scan state after the given lines. */
  function Run(format: Format, lines: seq<string>): ScanState
  {
    if lines == [] then ScanState(None, [])
    else Step(format, Run(format, lines[..|lines| - 1]), lines[|lines| - 1])
  }

  /** A call as the scan makes it: its path starts sanely and ends in a
      non-space character, it goes to the URL handler exactly when the path
      has an http:// or https:// scheme, and in a PLS file it carries no
      #EXTINF metadata. */
  predicate WellFormedCall(format: Format, c: Call)
  {
    SanePathStart(c.path) && !IsSpace(c.path[|c.path| - 1]) && (c.UrlCall? <==> IsUrl(c.path)) &&
    (format == Pls && c.UrlCall? ==> c.artist.None? && c.title.None?)
  }

  /** The path of an entry is a suffix of its line, so it ends where the
      line ends. */
  lemma EntryPathIsSuffix(format: Format, line: string)
    requires EntryPath(format, line).Some?
    ensures var p := EntryPath(format, line).value;
            |p| <= |line| && p == line[|line| - |p|..] && (|p| > 0 ==> p[|p| - 1] == line[|line| - 1])
  {
  }

  /** One line adds only well-formed calls, and in a PLS file leaves no
      metadata pending. */
  lemma StepWellFormed(format: Format, meta: Option<ExtInf>, raw: string)
    requires format == Pls ==> meta.None?
    ensures var st := Step(format, ScanState(meta, []), raw);
            (forall c :: c in st.calls ==> WellFormedCall(format, c)) && (format == Pls ==> st.meta.None?)
  {
    var line := Trimmed(raw);
    var st := Step(format, ScanState(meta, []), raw);
    if |line| >= 1 && !(format == M3u && ParseExtinf(line).Some?) && EntryPath(format, line).Some? &&
       SanePathStart(EntryPath(format, line).value) {
      var path := EntryPath(format, line).value;
      assert st == ScanState(None, [CallFor(path, meta)]);
      EntryPathIsSuffix(format, line);
      CallForWellFormed(format, path, meta);
    } else {
      assert st.calls == [];
    }
  }

  lemma CallForWellFormed(format: Format, path: string, meta: Option<ExtInf>)
    requires SanePathStart(path) && !IsSpace(path[|path| - 1]) && (format == Pls ==> meta.None?)
    ensures WellFormedCall(format, CallFor(path, meta))
  {
  }

  /** Every call of a scan is well-formed, and a PLS scan never has
      #EXTINF metadata pending. */
  lemma {:induction false} CallsWellFormed(format: Format, lines: seq<string>)
    ensures forall c :: c in Run(format, lines).calls ==> WellFormedCall(format, c)
    ensures format == Pls ==> Run(format, lines).meta.None?
  {
    if lines != [] {
      var last := lines[|lines| - 1];
      CallsWellFormed(format, lines[..|lines| - 1]);
      var st := Run(format, lines[..|lines| - 1]);
      StepAppends(format, st.meta, st.calls, last);
      StepWellFormed(format, st.meta, last);
    }
  }

  /** A library file that a playlist entry may refer to, with the number of
      trailing directory names it shares with the entry's path (the score
      parent_dir comparisons compute). */
  datatype Candidate = Candidate(path: string, score: nat)

  /** The rows a library query returned: qp.results and the fetched rows. */
  datatype QueryResult = QueryResult(results: nat, rows: seq<Candidate>)

  /** Whether row k scores strictly higher than every other row among the
      first n rows, and above 0. */
  predicate IsUniqueBestIn(rows: seq<Candidate>, n: int, k: int)
    requires 0 <= n <= |rows|
  {
    0 <= k < n && rows[k].score > 0 &&
    forall j :: 0 <= j < n && j != k ==> rows[j].score < rows[k].score
  }

  predicate IsUniqueBest(rows: seq<Candidate>, k: int)
  {
    IsUniqueBestIn(rows, |rows|, k)
  }

  /** The library path a playlist entry resolves to: the only row when the
      query found exactly one file, otherwise the row with the uniquely
      highest positive score, if there is one. */
  function Chosen(q: QueryResult): (r: Option<string>)
    ensures q.results == 1 ==> r == if |q.rows| > 0 then Some(q.rows[0].path) else None
    ensures q.results != 1 ==> (r.Some? <==> exists k :: IsUniqueBest(q.rows, k))
    ensures q.results != 1 ==> forall k :: IsUniqueBest(q.rows, k) ==> r == Some(q.rows[k].path)
  {
    if q.results == 1 then (if |q.rows| > 0 then Some(q.rows[0].path) else None)
    else match UniqueBestIndex(q.rows)
      case None => None
      case Some(k) =>
        assert forall j :: IsUniqueBest(q.rows, j) ==> j == k;
        Some(q.rows[k].path)
  }

  function MaxScore(rows: seq<Candidate>): (m: nat)
    ensures forall j :: 0 <= j < |rows| ==> rows[j].score <= m
    ensures m > 0 ==> exists j :: 0 <= j < |rows| && rows[j].score == m
  {
    if rows == [] then 0
    else
      var m := MaxScore(rows[..|rows| - 1]);
      assert forall j :: 0 <= j < |rows| - 1 ==> rows[..|rows| - 1][j] == rows[j];
      if rows[|rows| - 1].score > m then rows[|rows| - 1].score else m
  }

  /** The first row at or after from whose score is m. */
  function IndexOfScore(rows: seq<Candidate>, m: nat, from: nat): (r: Option<nat>)
    requires from <= |rows|
    ensures r.None? ==> forall j :: from <= j < |rows| ==> rows[j].score != m
    ensures r.Some? ==> from <= r.value < |rows| && rows[r.value].score == m
    ensures r.Some? ==> forall j :: from <= j < r.value ==> rows[j].score != m
    decreases |rows| - from
  {
    if from == |rows| then None
    else if rows[from].score == m then Some(from)
    else IndexOfScore(rows, m, from + 1)
  }

  function UniqueBestIndex(rows: seq<Candidate>): (r: Option<nat>)
    ensures r.Some? ==> IsUniqueBest(rows, r.value)
    ensures r.None? ==> forall k :: !IsUniqueBest(rows, k)
  {
    var m := MaxScore(rows);
    if m == 0 then None
    else match IndexOfScore(rows, m, 0)
      case None => None
      case Some(j) =>
        match IndexOfScore(rows, m, j + 1)
        case None => Some(j)
        case Some(j2) =>
          assert rows[j].score == m && rows[j2].score == m && j != j2;
          None
  }

  /** The winner loop of process_regular_file over the fetched rows. A row
      becomes the winner when its score beats the best so far; a row that
      only ties the best so far discards the current winner. */
  method PickWinner(q: QueryResult) returns (winner: Option<string>)
    ensures winner == Chosen(q)
  {
    var rows := q.rows;
    winner := None;
    var score: nat := 0;
    ghost var wk: int := -1;   // index of the current winner
    ghost var mk: int := -1;   // a row with the best score so far
    var i := 0;
    while i < |rows|
      invariant 0 <= i <= |rows|
      invariant q.results == 1 ==> i == 0 && winner.None?
      invariant forall j :: 0 <= j < i ==> rows[j].score <= score
      invariant score > 0 ==> 0 <= mk < i && rows[mk].score == score
      invariant winner.Some? ==> 0 <= wk < i && IsUniqueBestIn(rows, i, wk) && winner.value == rows[wk].path
      invariant winner.None? ==> forall k :: !IsUniqueBestIn(rows, i, k)
    {
      if q.results == 1 {
        winner := Some(rows[0].path);
        break;
      }
      var s := rows[i].score;
      ghost var n := i + 1;
      if s > score {
        winner := Some(rows[i].path);
        wk, mk := i, i;
        score := s;
      } else if s == score {
        winner := None;
        forall k | 0 <= k <= i ensures !IsUniqueBestIn(rows, n, k) {
          if score > 0 {
            assert mk != i && rows[mk].score == rows[i].score;
          }
        }
      } else {
        forall k | 0 <= k <= i && IsUniqueBestIn(rows, n, k) ensures k < i && IsUniqueBestIn(rows, i, k) {
          assert mk != i && rows[mk].score > rows[i].score;
        }
      }
      i := i + 1;
    }
  }

  /** process_regular_file's fix for playlists written on Windows: every
      backslash becomes a forward slash. */
  function Slashed(s: string): (r: string)
    ensures |r| == |s| && '\\' !in r
    ensures forall k :: 0 <= k < |s| && s[k] != '\\' ==> r[k] == s[k]
    ensures forall k :: 0 <= k < |s| && s[k] == '\\' ==> r[k] == '/'
  {
    seq(|s|, k requires 0 <= k < |s| => if s[k] == '\\' then '/' else s[k])
  }

  /** The backslash loop of process_regular_file, in place on the path. */
  method FixBackslashes(path: array<char>)
    modifies path
    ensures path[..] == Slashed(old(path[..]))
  {
    var i := 0;
    while i < path.Length
      invariant 0 <= i <= path.Length
      invariant forall k :: 0 <= k < i ==> path[k] == Slashed(old(path[..]))[k]
      invariant forall k :: i <= k < path.Length ==> path[k] == old(path[k])
    {
      if path[i] == '\\' {
        path[i] := '/';
      }
      i := i + 1;
    }
  }

  /** The library lookup for a playlist entry: None when the filter cannot be
      built or the query cannot start, otherwise the rows it returns. */
  type LibraryQuery = string -> Option<QueryResult>

  /** What process_regular_file returns for a path: 0 when a library file was
      chosen, -1 otherwise. */
  function RegularFileResult(path: string, query: LibraryQuery): int
  {
    match query(Slashed(path))
    case None => -1
    case Some(q) => if Chosen(q).Some? then 0 else -1
  }

  /** process_regular_file: fix the separators in place, query the library by
      the file name, pick the winner and add it to the playlist. Returns the
      result code and the library path it added. */
  method ProcessRegularFile(path: array<char>, query: LibraryQuery) returns (ret: int, added: Option<string>)
    modifies path
    ensures path[..] == Slashed(old(path[..]))
    ensures ret == RegularFileResult(old(path[..]), query)
    ensures ret == 0 <==> added.Some?
    ensures added.Some? ==> query(path[..]).Some? && added == Chosen(query(path[..]).value)
  {
    FixBackslashes(path);
    var q := query(path[..]);
    if q.None? {
      return -1, None;
    }
    var winner := PickWinner(q.value);
    if winner.None? {
      return -1, None;
    }
    // db_pl_add_item_bypath(pl_id, winner)
    return 0, winner;
  }

  /** The stream handler process_url: it receives the path and the #EXTINF
      artist and title collected for it, and returns 0 on success. */
  type UrlHandler = (string, Option<string>, Option<string>) -> int

  function CallResult(c: Call, processUrl: UrlHandler, query: LibraryQuery): int
  {
    match c
    case UrlCall(p, a, t) => processUrl(p, a, t)
    case FileCall(p) => RegularFileResult(p, query)
  }

  /** How many of the calls succeeded. */
  function CountAdded(calls: seq<Call>, processUrl: UrlHandler, query: LibraryQuery): (n: nat)
    ensures n <= |calls|
  {
    if calls == [] then 0
    else CountAdded(calls[..|calls| - 1], processUrl, query) +
         (if CallResult(calls[|calls| - 1], processUrl, query) == 0 then 1 else 0)
  }

  /** mfi holds exactly the pending metadata meta. */
  predicate Holds(mfi: MediaFileInfo, meta: Option<ExtInf>)
    reads mfi
  {
    match meta
    case None => mfi.artist.None? && mfi.title.None?
    case Some(m) => mfi.artist == Some(m.artist) && mfi.title == Some(m.title)
  }

  /** The calls one line adds, from a given pending metadata. */
  lemma StepAppends(format: Format, meta: Option<ExtInf>, calls: seq<Call>, raw: string)
    ensures Step(format, ScanState(meta, calls), raw) ==
            ScanState(Step(format, ScanState(meta, []), raw).meta,
                      calls + Step(format, ScanState(meta, []), raw).calls)
  {
  }

  /** The scan state after one more line, in terms of the calls that line
      makes. */
  lemma RunExtends(format: Format, lines: seq<string>, i: nat, call: Option<Call>)
    requires i < |lines|
    requires Step(format, ScanState(Run(format, lines[..i]).meta, []), lines[i]).calls ==
             if call.Some? then [call.value] else []
    ensures Run(format, lines[..i + 1]).calls ==
            Run(format, lines[..i]).calls + if call.Some? then [call.value] else []
    ensures Run(format, lines[..i + 1]).meta ==
            Step(format, ScanState(Run(format, lines[..i]).meta, []), lines[i]).meta
  {
    assert lines[..i + 1][..i] == lines[..i];
    var st := Run(format, lines[..i]);
    StepAppends(format, st.meta, st.calls, lines[i]);
  }

  lemma CountAddedSnoc(calls: seq<Call>, c: Call, processUrl: UrlHandler, query: LibraryQuery)
    ensures CountAdded(calls + [c], processUrl, query) ==
            CountAdded(calls, processUrl, query) + if CallResult(c, processUrl, query) == 0 then 1 else 0
  {
    assert (calls + [c])[..|calls|] == calls;
  }

  /** The body of the line loop of scan_playlist for one line read by fgets:
      trim it, take #EXTINF metadata into mfi, or extract the entry's path and
      hand it to process_url or process_regular_file, then clear mfi. Returns
      the call made, if any, and its result. */
  method HandleLine(format: Format, raw: string, mfi: MediaFileInfo, ghost meta: Option<ExtInf>,
                    processUrl: UrlHandler, query: LibraryQuery)
    returns (call: Option<Call>, ret: int)
    requires Holds(mfi, meta)
    modifies mfi
    ensures Holds(mfi, Step(format, ScanState(meta, []), raw).meta)
    ensures Step(format, ScanState(meta, []), raw).calls == if call.Some? then [call.value] else []
    ensures call.Some? ==> ret == CallResult(call.value, processUrl, query)
  {
    var buf := RTrim(raw);
    if |buf| < 1 {
      return None, 0;
    }
    if format == M3u {
      var isMeta := ExtinfGet(buf, mfi);
      if isMeta {
        return None, 0;
      }
    }
    var path := EntryPath(format, buf);
    if path.None? || !SanePathStart(path.value) {
      return None, 0;
    }
    if IsUrl(path.value) {
      call := Some(UrlCall(path.value, mfi.artist, mfi.title));
      ret := processUrl(path.value, mfi.artist, mfi.title);
    } else {
      call := Some(FileCall(path.value));
      var pathBuf := new char[|path.value|](k requires 0 <= k < |path.value| => path.value[k]);
      assert pathBuf[..] == path.value;
      var added;
      ret, added := ProcessRegularFile(pathBuf, query);
    }
    assert call.value == CallFor(path.value, meta);
    // Clean up in preparation for the next item
    mfi.Clear();
  }

  /** The line loop of scan_playlist. Returns the number of entries
      processed (ntracks), the number added (nadded), and the handler calls
      made, which are the calls of the specification Run. */
  method ScanLines(format: Format, lines: seq<string>, processUrl: UrlHandler, query: LibraryQuery)
    returns (ntracks: nat, nadded: nat, calls: seq<Call>)
    ensures calls == Run(format, lines).calls
    ensures ntracks == |calls|
    ensures nadded == CountAdded(calls, processUrl, query)
  {
    var mfi := new MediaFileInfo();
    ntracks, nadded, calls := 0, 0, [];
    var i := 0;
    while i < |lines|
      invariant 0 <= i <= |lines|
      invariant Run(format, lines[..i]).calls == calls
      invariant Holds(mfi, Run(format, lines[..i]).meta)
      invariant ntracks == |calls|
      invariant nadded == CountAdded(calls, processUrl, query)
    {
      ghost var before := Run(format, lines[..i]);
      var call, ret := HandleLine(format, lines[i], mfi, before.meta, processUrl, query);
      RunExtends(format, lines, i, call);
      if call.Some? {
        CountAddedSnoc(calls, call.value, processUrl, query);
        calls := calls + [call.value];
        ntracks := ntracks + 1;
        if ret == 0 {
          nadded := nadded + 1;
        }
      }
      i := i + 1;
    }
    assert lines[..i] == lines;
  }

  /** A playlist known to the store: its id and db_timestamp. */
  datatype StoredPlaylist = StoredPlaylist(id: int, dbTimestamp: int)

  /** How scan_playlist ended. */
  datatype ScanOutcome =
    | NotAPlaylist                       // extension is not .m3u or .pls
    | Unchanged(id: int)                 // known and not modified: items kept
    | AddFailed                          // new playlist the store refused
    | Unreadable(id: int, cleared: bool) // stat() or fopen() failed
    | Scanned(id: int, cleared: bool, ntracks: nat, nadded: nat, calls: seq<Call>)

  /** scan_playlist. A known playlist that is modified has its items cleared
      first; a new one is added to the store (newId is the id db_pl_add
      gives, None when it fails); contents is None when the file cannot be
      opened, otherwise the lines fgets returns. */
  method ScanPlaylist(file: string, mtime: int, existing: Option<StoredPlaylist>, newId: Option<int>,
                      contents: Option<seq<string>>, processUrl: UrlHandler, query: LibraryQuery)
    returns (outcome: ScanOutcome)
    ensures PlaylistFormat(file).None? ==> outcome == NotAPlaylist
    ensures (PlaylistFormat(file).Some? && existing.Some? &&
             IsUnchanged(mtime, existing.value.dbTimestamp)) ==> outcome == Unchanged(existing.value.id)
    ensures PlaylistFormat(file).Some? && existing.None? && newId.None? ==> outcome == AddFailed
    ensures outcome.Scanned? ==>
              PlaylistFormat(file).Some? && contents.Some? &&
              (existing.Some? ==> !IsUnchanged(mtime, existing.value.dbTimestamp) &&
                                  outcome.id == existing.value.id && outcome.cleared) &&
              (existing.None? ==> newId == Some(outcome.id) && !outcome.cleared) &&
              outcome.calls == Run(PlaylistFormat(file).value, contents.value).calls &&
              outcome.ntracks == |outcome.calls| &&
              outcome.nadded == CountAdded(outcome.calls, processUrl, query)
    ensures (PlaylistFormat(file).Some? && contents.None? &&
             (existing.Some? ==> !IsUnchanged(mtime, existing.value.dbTimestamp)) &&
             (existing.None? ==> newId.Some?)) ==>
              outcome == Unreadable(if existing.Some? then existing.value.id else newId.value, existing.Some?)
    ensures (PlaylistFormat(file).Some? && contents.Some? &&
             (existing.Some? ==> !IsUnchanged(mtime, existing.value.dbTimestamp)) &&
             (existing.None? ==> newId.Some?)) ==> outcome.Scanned?
  {
    var format := PlaylistFormat(file);
    if format.None? {
      return NotAPlaylist;
    }
    var plId: int;
    var cleared := false;
    if existing.Some? {
      if IsUnchanged(mtime, existing.value.dbTimestamp) {
        // the playlist's radio stations are pinged so they survive the purge
        return Unchanged(existing.value.id);
      }
      plId := existing.value.id;
      cleared := true;   // db_pl_clear_items
    } else {
      if newId.None? {
        return AddFailed;
      }
      plId := newId.value;
    }
    if contents.None? {
      return Unreadable(plId, cleared);
    }
    var ntracks, nadded, calls := ScanLines(format.value, contents.value, processUrl, query);
    return Scanned(plId, cleared, ntracks, nadded, calls);
  }
}
