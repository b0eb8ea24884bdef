/** The artwork search policy: the rescale arithmetic, the candidate file
    names looked for next to a track or in an album directory, and the
    ordered walk over the artwork sources together with the rules that
    decide whether the outcome may be cached.

    The file system (access), the image loader (artwork_get), the library
    queries and the source handlers are parameters. */
module Artwork {
  import opened Common

  /** ART_E_NONE, ART_E_ERROR and ART_E_ABORT; a positive result is an
      ART_FMT_* image format. */
  const ART_E_NONE: int := 0
  const ART_E_ERROR: int := -1
  const ART_E_ABORT: int := -2

  /** enum artwork_cache, a bit set */
  const NEVER: bv32 := 0
  const ON_SUCCESS: bv32 := 1
  const ON_FAILURE: bv32 := 2

  /** enum data_kind */
  const DATA_KIND_FILE: nat := 0
  const DATA_KIND_HTTP: nat := 1
  const DATA_KIND_SPOTIFY: nat := 2
  const DATA_KIND_PIPE: nat := 3

  /** cover_extension */
  const CoverExtensions: seq<string> := ["jpg", "png"]

  // ---------------------------------------------------------------------
  // rescale_calculate

  /** The return value and the two out-parameters of rescale_calculate. */
  datatype Rescale = Rescale(ret: int, targetW: int, targetH: int)

  /** Whether the image is wider than the requested box, compared by cross
      multiplication. */
  predicate Wider(width: int, height: int, maxW: int, maxH: int)
  {
    width * maxH > height * maxW
  }

  /** rescale_calculate. The floating-point product that gives the side not
      pinned to the box (max_w * height / width, or max_h * width / height),
      truncated to int, is the parameter scaled. */
  function RescaleCalculate(width: int, height: int, maxW: int, maxH: int, scaled: nat): (r: Rescale)
    ensures r.ret == -1 || r.ret == 0
    ensures r.ret == -1 <==> width == 0 || height == 0 || maxW <= 0 || maxH <= 0 ||
                             (width <= maxW && height <= maxH)
    ensures r.ret == -1 ==> r.targetW == width && r.targetH == height
    ensures r.ret == 0 ==> 0 <= r.targetW <= maxW && 0 <= r.targetH <= maxH
    ensures r.ret == 0 ==> r.targetW % 2 == 0
    ensures r.ret == 0 && Wider(width, height, maxW, maxH) ==>
              r.targetW == maxW - maxW % 2 && r.targetH == (if scaled > maxH then maxH else scaled)
    ensures r.ret == 0 && !Wider(width, height, maxW, maxH) ==> r.targetH == maxH
  {
    if width == 0 || height == 0 then Rescale(-1, width, height)
    else if maxW <= 0 || maxH <= 0 then Rescale(-1, width, height)
    else if width <= maxW && height <= maxH then Rescale(-1, width, height)
    else
      var w := if Wider(width, height, maxW, maxH) then maxW else scaled;
      var h := if Wider(width, height, maxW, maxH) then scaled else maxH;
      var h1 := if h > maxH && maxH > 0 then maxH else h;
      // PNG prefers an even row count
      var w1 := w + CRem2(w);
      var w2 := if w1 > maxW && maxW > 0 then maxW - CRem2(maxW) else w1;
      Rescale(0, w2, h1)
  }

  /** A rescaled size fits the box, so asking to rescale it again for the
      same box reports that no rescaling is needed. */
  lemma RescaleSettles(width: int, height: int, maxW: int, maxH: int, scaled: nat, scaled2: nat)
    ensures var r := RescaleCalculate(width, height, maxW, maxH, scaled);
            r.ret == 0 ==> RescaleCalculate(r.targetW, r.targetH, maxW, maxH, scaled2) ==
                           Rescale(-1, r.targetW, r.targetH)
  {
  }

  // ---------------------------------------------------------------------
  // Candidate file names

  /** Whether snprintf into a PATH_MAX buffer keeps the whole name. */
  predicate Fits(p: string)
  {
    |p| < PATH_MAX
  }

  /** A candidate the search can use: it fits the buffer and exists. */
  predicate Usable(p: string, present: string -> bool)
  {
    Fits(p) && present(p)
  }

  /** The index of the first usable candidate. */
  function FirstUsable(cands: seq<string>, present: string -> bool): (r: Option<nat>)
    ensures r.Some? ==> r.value < |cands| && Usable(cands[r.value], present)
    ensures r.Some? ==> forall k :: 0 <= k < r.value ==> !Usable(cands[k], present)
    ensures r.None? ==> forall k :: 0 <= k < |cands| ==> !Usable(cands[k], present)
  {
    if cands == [] then None
    else if Usable(cands[0], present) then Some(0)
    else match FirstUsable(cands[1..], present)
      case None => None
      case Some(k) => Some(k + 1)
  }

  /** artwork_file_is_artwork: 1 when the file name is "<basename>.<ext>"
      for a configured basename and a cover extension, a name that fits
      PATH_MAX; 0 otherwise. */
  method FileIsArtwork(basenames: seq<string>, filename: string) returns (r: int)
    ensures r == 0 || r == 1
    ensures r == 1 <==> exists i, j :: 0 <= i < |basenames| && 0 <= j < 2 &&
                          Fits(basenames[i] + "." + CoverExtensions[j]) &&
                          basenames[i] + "." + CoverExtensions[j] == filename
  {
    var n := |basenames|;
    var i := 0;
    while i < n
      invariant 0 <= i <= n
      invariant forall i', j :: 0 <= i' < i && 0 <= j < 2 ==>
                  !(Fits(basenames[i'] + "." + CoverExtensions[j]) &&
                    basenames[i'] + "." + CoverExtensions[j] == filename)
    {
      var j := 0;
      while j < |CoverExtensions|
        invariant 0 <= j <= 2
        invariant forall j' :: 0 <= j' < j ==>
                    !(Fits(basenames[i] + "." + CoverExtensions[j']) &&
                      basenames[i] + "." + CoverExtensions[j'] == filename)
      {
        var artwork := basenames[i] + "." + CoverExtensions[j];
        if !Fits(artwork) {
          j := j + 1;
          continue;
        }
        if artwork == filename {
          return 1;
        }
        j := j + 1;
      }
      i := i + 1;
    }
    return 0;
  }

  /** The path of an own artwork file is cut at its last '.', wherever that
      is. */
  function OwnStem(path: string): (r: string)
    ensures '.' !in path ==> r == path
    ensures '.' in path ==> |r| < |path| && r == path[..|r|] && path[|r|] == '.' && '.' !in path[|r| + 1..]
  {
    match LastIndexOf(path, '.')
    case None => path
    case Some(i) => path[..i]
  }

  /** The own artwork candidates of a track: "<stem>.jpg", then "<stem>.png". */
  function OwnCandidates(path: string): seq<string>
  {
    [OwnStem(path) + "." + CoverExtensions[0], OwnStem(path) + "." + CoverExtensions[1]]
  }

  /** What a handler reports: the result, and the artwork path it wrote to
      ctx->path, if any. */
  datatype Lookup = Lookup(ret: int, path: Option<string>)

  /** The candidate loop shared by the own-artwork and directory searches:
      each candidate is formatted into the PATH_MAX buffer, skipped when it
      does not fit or does not exist, and the first remaining one is taken.
      Returns its index, or |cands| when there is none. */
  method TryCandidates(cands: seq<string>, present: string -> bool) returns (i: nat)
    ensures i <= |cands|
    ensures i == |cands| <==> FirstUsable(cands, present).None?
    ensures i < |cands| ==> FirstUsable(cands, present) == Some(i)
  {
    i := 0;
    while i < |cands|
      invariant 0 <= i <= |cands|
      invariant forall k :: 0 <= k < i ==> !Usable(cands[k], present)
    {
      var path := cands[i];
      if !Fits(path) {
        i := i + 1;
        continue;
      }
      if !present(path) {
        i := i + 1;
        continue;
      }
      break;
    }
  }

  /** source_item_own_get. An over-long track path is an error; otherwise
      the first candidate that fits and exists is loaded, and with none the
      result is ART_E_NONE. */
  method OwnGet(trackPath: string, present: string -> bool, load: string -> int) returns (r: Lookup)
    ensures !Fits(trackPath) ==> r == Lookup(ART_E_ERROR, None)
    ensures Fits(trackPath) && FirstUsable(OwnCandidates(trackPath), present).None? ==> r == Lookup(ART_E_NONE, None)
    ensures Fits(trackPath) && FirstUsable(OwnCandidates(trackPath), present).Some? ==>
              var p := OwnCandidates(trackPath)[FirstUsable(OwnCandidates(trackPath), present).value];
              r == Lookup(load(p), Some(p))
  {
    if !Fits(trackPath) {
      return Lookup(ART_E_ERROR, None);
    }
    var cands := OwnCandidates(trackPath);
    var i := TryCandidates(cands, present);
    if i == |cands| {
      return Lookup(ART_E_NONE, None);
    }
    return Lookup(load(cands[i]), Some(cands[i]));
  }

  /** The position of "<basename i>.<extension j>" among the candidates. */
  function Slot(i: nat, j: nat): nat
  {
    2 * i + j
  }

  /** "<dir>/<basename>.<extension j>" */
  function DirCandidate(dir: string, basename: string, j: nat): string
    requires j < 2
  {
    dir + "/" + basename + "." + CoverExtensions[j]
  }

  /** The directory candidates: "<dir>/<basename>.<ext>", basename-major. */
  function DirCandidates(dir: string, basenames: seq<string>): (r: seq<string>)
    ensures |r| == 2 * |basenames|
  {
    if basenames == [] then []
    else
      var last := |basenames| - 1;
      DirCandidates(dir, basenames[..last]) + [DirCandidate(dir, basenames[last], 0), DirCandidate(dir, basenames[last], 1)]
  }

  /** Candidate Slot(i, j) is basename i with extension j. */
  lemma {:induction false} DirCandidateAt(dir: string, basenames: seq<string>, i: nat, j: nat)
    requires i < |basenames| && j < 2
    ensures DirCandidates(dir, basenames)[Slot(i, j)] == DirCandidate(dir, basenames[i], j)
  {
    var last := |basenames| - 1;
    if i < last {
      DirCandidateAt(dir, basenames[..last], i, j);
    }
  }

  /** Where the parent-directory step looks: the buffer is cut at its last
      '/', and the name after the '/' before that is the directory name.
      None when there is no such '/' or the name is empty. */
  datatype ParentSplit = ParentSplit(base: string, name: string)

  function ParentOf(buffer: string): (r: Option<ParentSplit>)
    ensures r.Some? ==> r.value.name != [] && '/' !in r.value.name
  {
    var cut := match LastIndexOf(buffer, '/') case None => buffer case Some(i) => buffer[..i];
    match LastIndexOf(cut, '/')
    case None => None
    case Some(k) => if |cut| - k <= 1 then None else Some(ParentSplit(cut, cut[k + 1..]))
  }

  function ParentCandidates(split: ParentSplit): seq<string>
  {
    [split.base + "/" + split.name + "." + CoverExtensions[0],
     split.base + "/" + split.name + "." + CoverExtensions[1]]
  }

  lemma LastSlash(head: string, tail: string)
    requires '/' !in tail
    ensures LastIndexOf(head + "/" + tail, '/') == Some(|head|)
    ensures (head + "/" + tail)[..|head|] == head
  {
    var s := head + "/" + tail;
    assert s[|head|] == '/';
    assert s[|head| + 1..] == tail;
  }

  /** For a directory whose candidates fit the buffer, the parent-directory
      step looks for "<dir>/<last component of dir>.{jpg,png}". */
  lemma {:induction false} ParentCandidatesOfDir(dir: string, basenames: seq<string>, parent: string, name: string)
    requires basenames != [] && dir == parent + "/" + name
    requires name != [] && '/' !in name && '/' !in basenames[|basenames| - 1]
    requires Fits(DirCandidate(dir, basenames[|basenames| - 1], 1))
    ensures var buffer := FitPath(DirCandidate(dir, basenames[|basenames| - 1], 1));
            ParentOf(buffer) == Some(ParentSplit(dir, name))
  {
    var b := basenames[|basenames| - 1];
    var tail := b + "." + CoverExtensions[1];
    assert '/' !in tail by {
      assert tail == b + ".png";
      assert forall k :: 0 <= k < |tail| ==> tail[k] == if k < |b| then b[k] else ".png"[k - |b|];
    }
    assert DirCandidate(dir, b, 1) == dir + "/" + tail;
    LastSlash(dir, tail);
    LastSlash(parent, name);
  }

  /** The first usable candidate is the one at k when k is usable and no
      candidate before it is. */
  lemma FirstUsableAt(cands: seq<string>, present: string -> bool, k: nat)
    requires k < |cands| && Usable(cands[k], present)
    requires forall k' :: 0 <= k' < k ==> !Usable(cands[k'], present)
    ensures FirstUsable(cands, present) == Some(k)
  {
  }

  /** When neither candidate of basename i is usable, the unusable prefix of
      the candidate list grows by both of them. */
  lemma UnusablePrefixGrows(dir: string, basenames: seq<string>, present: string -> bool, i: nat)
    requires i < |basenames|
    requires forall k :: 0 <= k < Slot(i, 0) ==> !Usable(DirCandidates(dir, basenames)[k], present)
    requires forall j :: 0 <= j < 2 ==> !Usable(DirCandidate(dir, basenames[i], j), present)
    ensures forall k :: 0 <= k < Slot(i + 1, 0) ==> !Usable(DirCandidates(dir, basenames)[k], present)
  {
    DirCandidateAt(dir, basenames, i, 0);
    DirCandidateAt(dir, basenames, i, 1);
  }

  /** The extension loop of artwork_get_dir_image for one basename. Returns
      the index of the first extension whose candidate is usable (2 when
      there is none) and the buffer the last snprintf left. */
  method TryBasename(dir: string, basename: string, present: string -> bool) returns (j: nat, path: string)
    ensures j <= 2
    ensures forall j' :: 0 <= j' < j && j' < 2 ==> !Usable(DirCandidate(dir, basename, j'), present)
    ensures j < 2 ==> Usable(DirCandidate(dir, basename, j), present) && path == DirCandidate(dir, basename, j)
    ensures j == 2 ==> path == FitPath(DirCandidate(dir, basename, 1))
  {
    j := 0;
    path := dir;
    while j < |CoverExtensions|
      invariant 0 <= j <= 2
      invariant forall j' :: 0 <= j' < j ==> !Usable(DirCandidate(dir, basename, j'), present)
      invariant j > 0 ==> path == FitPath(DirCandidate(dir, basename, j - 1))
    {
      var full := DirCandidate(dir, basename, j);
      path := FitPath(full);
      if !Fits(full) || !present(path) {
        j := j + 1;
        continue;
      }
      break;
    }
  }

  /** The basename loops of artwork_get_dir_image. Returns whether a
      candidate was found and the buffer's contents: the found candidate, or
      what the last (truncating) snprintf left there. */
  method SearchBasenames(dir: string, basenames: seq<string>, present: string -> bool)
    returns (found: bool, path: string)
    requires basenames != []
    ensures found <==> FirstUsable(DirCandidates(dir, basenames), present).Some?
    ensures found ==> path == DirCandidates(dir, basenames)[FirstUsable(DirCandidates(dir, basenames), present).value]
    ensures !found ==> path == FitPath(DirCandidate(dir, basenames[|basenames| - 1], 1))
  {
    ghost var cands := DirCandidates(dir, basenames);
    path := dir;
    var i := 0;
    while i < |basenames|
      invariant 0 <= i <= |basenames|
      invariant forall k :: 0 <= k < Slot(i, 0) ==> !Usable(cands[k], present)
      invariant i > 0 ==> path == FitPath(DirCandidate(dir, basenames[i - 1], 1))
    {
      var j;
      j, path := TryBasename(dir, basenames[i], present);
      if j < |CoverExtensions| {
        DirCandidateAt(dir, basenames, i, 0);
        DirCandidateAt(dir, basenames, i, j);
        FirstUsableAt(cands, present, Slot(i, j));
        return true, path;
      }
      UnusablePrefixGrows(dir, basenames, present, i);
      i := i + 1;
    }
    found := false;
  }

  /** artwork_get_dir_image. Over-long directories are an error and with no
      basenames configured nothing is found. Otherwise the first usable
      "<dir>/<basename>.<ext>" is loaded; failing that, the buffer as the last
      attempt left it (snprintf truncates) is split into its parent
      directory and name, an error when there is no name, and the first
      usable "<base>/<name>.<ext>" is loaded, or nothing is found. */
  method DirImage(dir: string, basenames: seq<string>, present: string -> bool, load: string -> int)
    returns (r: Lookup)
    ensures !Fits(dir) ==> r == Lookup(ART_E_ERROR, None)
    ensures Fits(dir) && basenames == [] ==> r == Lookup(ART_E_NONE, None)
    ensures Fits(dir) && basenames != [] && FirstUsable(DirCandidates(dir, basenames), present).Some? ==>
              var p := DirCandidates(dir, basenames)[FirstUsable(DirCandidates(dir, basenames), present).value];
              r == Lookup(load(p), Some(p))
    ensures Fits(dir) && basenames != [] && FirstUsable(DirCandidates(dir, basenames), present).None? ==>
              var buffer := FitPath(DirCandidate(dir, basenames[|basenames| - 1], 1));
              match ParentOf(buffer)
              case None => r == Lookup(ART_E_ERROR, None)
              case Some(split) =>
                match FirstUsable(ParentCandidates(split), present)
                case None => r == Lookup(ART_E_NONE, None)
                case Some(k) => r == Lookup(load(ParentCandidates(split)[k]), Some(ParentCandidates(split)[k]))
  {
    if !Fits(dir) {
      return Lookup(ART_E_ERROR, None);
    }
    if |basenames| == 0 {
      return Lookup(ART_E_NONE, None);
    }
    var found, path := SearchBasenames(dir, basenames, present);
    if !found {
      // Parent directory artwork
      var split := ParentOf(path);
      if split.None? {
        return Lookup(ART_E_ERROR, None);
      }
      var parentCands := ParentCandidates(split.value);
      var i := TryCandidates(parentCands, present);
      if i == |parentCands| {
        return Lookup(ART_E_NONE, None);
      }
      path := parentCands[i];
    }
    return Lookup(load(path), Some(path));
  }

  // ---------------------------------------------------------------------
  // Sources and the cache decision

  /** struct artwork_source without its handler. */
  datatype Source = Source(name: string, dataKinds: bv32, cache: bv32)

  /** artwork_group_source */
  const GroupSources: seq<Source> := [
    Source("cache", 0, ON_FAILURE),
    Source("directory", 0, ON_SUCCESS | ON_FAILURE)
  ]

  /** artwork_item_source */
  const ItemSources: seq<Source> := [
    Source("cache", (1 << DATA_KIND_FILE) | (1 << DATA_KIND_SPOTIFY), ON_FAILURE),
    Source("embedded", 1 << DATA_KIND_FILE, ON_SUCCESS | ON_FAILURE),
    Source("own", 1 << DATA_KIND_FILE, ON_SUCCESS | ON_FAILURE),
    Source("stream", 1 << DATA_KIND_HTTP, NEVER),
    Source("pipe", 1 << DATA_KIND_PIPE, NEVER),
    Source("Spotify", 1 << DATA_KIND_SPOTIFY, ON_SUCCESS),
    Source("Spotify web api", 1 << DATA_KIND_SPOTIFY, ON_SUCCESS | ON_FAILURE),
    Source("playlist own", 1 << DATA_KIND_HTTP, ON_SUCCESS | ON_FAILURE)
  ]

  /** Whether a source is asked: group sources always, item sources only
      when their data_kinds has the item's bit. */
  predicate Consulted(s: Source, kind: Option<nat>)
  {
    kind.None? || (kind.value <= 30 && s.dataKinds & ((1 as bv32) << kind.value) != 0)
  }

  predicate CachesFailure(s: Source)
  {
    s.cache & ON_FAILURE != 0
  }

  /** How a walk over the sources from some index on ends: a source found
      artwork, a source stopped the search, or every consulted source was
      asked without success (never: some of them forbade caching the miss). */
  datatype Walk = Hit(ret: int, source: nat) | Abort | Miss(never: bool)

  /** The walk over sources[from..] for one item (kind is its data kind) or
      for a group (kind is None); handler gives each source's answer. */
  function WalkFrom(sources: seq<Source>, kind: Option<nat>, handler: nat -> int, from: nat): (w: Walk)
    requires from <= |sources|
    ensures w.Hit? ==> from <= w.source < |sources| && w.ret == handler(w.source) && w.ret > 0
    decreases |sources| - from
  {
    if from == |sources| then Miss(false)
    else if !Consulted(sources[from], kind) then WalkFrom(sources, kind, handler, from + 1)
    else
      var ret := handler(from);
      if ret > 0 then Hit(ret, from)
      else if ret == ART_E_ABORT then Abort
      else match WalkFrom(sources, kind, handler, from + 1)
        case Miss(n) => Miss(n || !CachesFailure(sources[from]) || ret == ART_E_ERROR)
        case w => w
  }

  /** What a walk's outcome means: a hit is the first consulted source with
      a positive answer, every consulted source before it having neither
      found artwork nor aborted; an abort comes from a consulted source that
      answered ART_E_ABORT; a miss means every consulted source answered
      without success, and its flag says whether one of them forbade
      caching the miss or failed with ART_E_ERROR. */
  lemma {:induction false} WalkMeaning(sources: seq<Source>, kind: Option<nat>, handler: nat -> int, from: nat)
    requires from <= |sources|
    ensures var w := WalkFrom(sources, kind, handler, from);
            (w.Hit? ==> Consulted(sources[w.source], kind) && w.ret == handler(w.source) && w.ret > 0 &&
                        forall k :: from <= k < w.source && Consulted(sources[k], kind) ==>
                          handler(k) <= 0 && handler(k) != ART_E_ABORT) &&
            (w.Abort? ==> exists s :: from <= s < |sources| && Consulted(sources[s], kind) &&
                                      handler(s) == ART_E_ABORT) &&
            (w.Miss? ==> forall k :: from <= k < |sources| && Consulted(sources[k], kind) ==>
                           handler(k) <= 0 && handler(k) != ART_E_ABORT) &&
            (w.Miss? ==> (w.never <==> exists k :: from <= k < |sources| && Consulted(sources[k], kind) &&
                                         (!CachesFailure(sources[k]) || handler(k) == ART_E_ERROR)))
    decreases |sources| - from
  {
    if from < |sources| {
      WalkMeaning(sources, kind, handler, from + 1);
    }
  }

  /** The cache setting after a walk, from the one before it. */
  function CacheAfter(sources: seq<Source>, w: Walk, cache: bv32): bv32
    requires w.Hit? ==> w.source < |sources|
  {
    match w
    case Hit(_, s) => sources[s].cache & ON_SUCCESS
    case Abort => NEVER
    case Miss(n) => if n then NEVER else cache
  }

  /** The item sources each data kind is asked, in order. */
  lemma {:induction false} ItemSourcesByKind()
    ensures forall k :: 0 <= k < |ItemSources| ==>
              (Consulted(ItemSources[k], Some(DATA_KIND_FILE)) <==> k in {0, 1, 2})
    ensures forall k :: 0 <= k < |ItemSources| ==>
              (Consulted(ItemSources[k], Some(DATA_KIND_HTTP)) <==> k in {3, 7})
    ensures forall k :: 0 <= k < |ItemSources| ==>
              (Consulted(ItemSources[k], Some(DATA_KIND_SPOTIFY)) <==> k in {0, 5, 6})
    ensures forall k :: 0 <= k < |ItemSources| ==>
              (Consulted(ItemSources[k], Some(DATA_KIND_PIPE)) <==> k == 4)
  {
    assert (1 as bv32) << 0 == 1 && (1 as bv32) << 1 == 2 && (1 as bv32) << 2 == 4 && (1 as bv32) << 3 == 8;
  }

  /** The artwork context fields the search updates. */
  class ArtworkCtx {
    var cache: bv32
    var persistentid: int
    var individual: bool

    constructor (individual: bool, persistentid: int)
      ensures this.cache == ON_FAILURE && this.persistentid == persistentid && this.individual == individual
    {
      this.cache := ON_FAILURE;
      this.persistentid := persistentid;
      this.individual := individual;
    }
  }

  /** A walk that follows sources which already forbade caching a miss. */
  function AfterEarlier(never: bool, w: Walk): Walk
  {
    match w
    case Miss(n) => Miss(never || n)
    case _ => w
  }

  /** The source loop shared by process_items (one item, kind is its data
      kind) and process_group (kind is None), updating ctx->cache. In
      process_group an ABORT returns at once; in process_items it leaves
      the source loop; both end the walk. */
  method WalkSources(ctx: ArtworkCtx, sources: seq<Source>, kind: Option<nat>, handler: nat -> int) returns (w: Walk)
    modifies ctx`cache
    ensures w == WalkFrom(sources, kind, handler, 0)
    ensures ctx.cache == CacheAfter(sources, w, old(ctx.cache))
  {
    var never := false;
    var i := 0;
    while i < |sources|
      invariant 0 <= i <= |sources|
      invariant ctx.cache == if never then NEVER else old(ctx.cache)
      invariant WalkFrom(sources, kind, handler, 0) == AfterEarlier(never, WalkFrom(sources, kind, handler, i))
    {
      if !Consulted(sources[i], kind) {
        i := i + 1;
        continue;
      }
      // If just one handler says a negative result must not be cached, obey
      if !CachesFailure(sources[i]) {
        ctx.cache := NEVER;
        never := true;
      }
      var ret := handler(i);
      if ret > 0 {
        ctx.cache := sources[i].cache & ON_SUCCESS;
        return Hit(ret, i);
      } else if ret == ART_E_ABORT {
        ctx.cache := NEVER;
        return Abort;
      } else if ret == ART_E_ERROR {
        ctx.cache := NEVER;
        never := true;
      }
      i := i + 1;
    }
    return Miss(never);
  }

  /** A row of an item query: the id and data kind as converted from their
      text (None when the conversion fails) and the song album id. */
  datatype ItemRow = ItemRow(id: Option<int>, dataKind: Option<nat>, songAlbumId: int)

  /** A source handler's answer for a given item row. */
  type ItemHandler = (nat, ItemRow) -> int

  predicate RowUsable(row: ItemRow)
  {
    row.id.Some? && row.dataKind.Some? && row.dataKind.value <= 30
  }

  /** The outcome of process_items: its result, ctx->cache and
      ctx->persistentid. */
  datatype Items = Items(ret: int, cache: bv32, persistentid: int)

  /** process_items from row j on, given ctx->cache and ctx->persistentid
      when row j is fetched; fetchError says whether fetching stops with
      an error rather than at the end of the rows. */
  function ItemsFrom(rows: seq<ItemRow>, j: nat, itemMode: bool, individual: bool, handler: ItemHandler,
                     fetchError: bool, cache: bv32, pid: int): (r: Items)
    requires j <= |rows|
    ensures r.ret == -1 || r.ret > 0
    decreases |rows| - j
  {
    if j == |rows| then Items(-1, if fetchError then NEVER else cache, pid)
    else
      var row := rows[j];
      var pid' := if pid == 0 then row.songAlbumId else pid;
      if itemMode && !individual then Items(-1, cache, pid')
      else if !RowUsable(row) then ItemsFrom(rows, j + 1, itemMode, individual, handler, fetchError, cache, pid')
      else
        var w := WalkFrom(ItemSources, row.dataKind, (k: nat) => handler(k, row), 0);
        if w.Hit? then Items(w.ret, CacheAfter(ItemSources, w, cache), pid')
        else ItemsFrom(rows, j + 1, itemMode, individual, handler, fetchError, CacheAfter(ItemSources, w, cache), pid')
  }

  /** Masking with ON_SUCCESS leaves ON_SUCCESS or nothing. */
  lemma SuccessBit(cache: bv32)
    ensures cache & ON_SUCCESS == NEVER || cache & ON_SUCCESS == ON_SUCCESS
  {
  }

  /** The cache rules of process_items: a hit is cached exactly when the
      source that found it caches successes, and a miss is cached only when
      the cache setting was already ON_FAILURE and nothing forbade it. A
      search that starts from ON_FAILURE therefore ends with NEVER,
      ON_SUCCESS (hit) or ON_FAILURE (miss). */
  lemma {:induction false} ItemsCacheRules(rows: seq<ItemRow>, j: nat, itemMode: bool, individual: bool,
                                           handler: ItemHandler, fetchError: bool, cache: bv32, pid: int)
    requires j <= |rows|
    ensures var r := ItemsFrom(rows, j, itemMode, individual, handler, fetchError, cache, pid);
            (r.ret > 0 || r.ret == -1) &&
            (r.ret > 0 ==> r.cache == NEVER || r.cache == ON_SUCCESS) &&
            (r.ret == -1 ==> r.cache == NEVER || r.cache == cache) &&
            (fetchError && r.ret == -1 && !(itemMode && !individual && j < |rows|) ==> r.cache == NEVER)
    decreases |rows| - j
  {
    if j < |rows| {
      var row := rows[j];
      var pid' := if pid == 0 then row.songAlbumId else pid;
      if !(itemMode && !individual) {
        if !RowUsable(row) {
          ItemsCacheRules(rows, j + 1, itemMode, individual, handler, fetchError, cache, pid');
        } else {
          var w := WalkFrom(ItemSources, row.dataKind, (k: nat) => handler(k, row), 0);
          if w.Hit? {
            WalkMeaning(ItemSources, row.dataKind, (k: nat) => handler(k, row), 0);
            SuccessBit(ItemSources[w.source].cache);
          } else {
            ItemsCacheRules(rows, j + 1, itemMode, individual, handler, fetchError,
                            CacheAfter(ItemSources, w, cache), pid');
          }
        }
      }
    }
  }

  /** The album id process_items leaves for process_group is the first
      non-zero song album id among the rows it fetched, when it had none. */
  lemma {:induction false} ItemsKeepsPersistentId(rows: seq<ItemRow>, j: nat, itemMode: bool, individual: bool,
                                                  handler: ItemHandler, fetchError: bool, cache: bv32, pid: int)
    requires j <= |rows|
    ensures pid != 0 ==> ItemsFrom(rows, j, itemMode, individual, handler, fetchError, cache, pid).persistentid == pid
    ensures pid == 0 && j < |rows| && rows[j].songAlbumId != 0 ==>
              ItemsFrom(rows, j, itemMode, individual, handler, fetchError, cache, pid).persistentid == rows[j].songAlbumId
    decreases |rows| - j
  {
    if j < |rows| {
      var row := rows[j];
      var pid' := if pid == 0 then row.songAlbumId else pid;
      if !(itemMode && !individual) && pid' != 0 {
        if !RowUsable(row) {
          ItemsKeepsPersistentId(rows, j + 1, itemMode, individual, handler, fetchError, cache, pid');
        } else {
          var w := WalkFrom(ItemSources, row.dataKind, (k: nat) => handler(k, row), 0);
          if !w.Hit? {
            ItemsKeepsPersistentId(rows, j + 1, itemMode, individual, handler, fetchError,
                                   CacheAfter(ItemSources, w, cache), pid');
          }
        }
      }
    }
  }

  /** process_items. queryStarted says whether db_query_start succeeded; the
      rows are what the query fetches. */
  method ProcessItems(ctx: ArtworkCtx, itemMode: bool, queryStarted: bool, rows: seq<ItemRow>,
                      fetchError: bool, handler: ItemHandler) returns (ret: int)
    modifies ctx`cache, ctx`persistentid
    ensures !queryStarted ==> ret == -1 && ctx.cache == NEVER && ctx.persistentid == old(ctx.persistentid)
    ensures queryStarted ==>
              Items(ret, ctx.cache, ctx.persistentid) ==
              ItemsFrom(rows, 0, itemMode, ctx.individual, handler, fetchError, old(ctx.cache), old(ctx.persistentid))
  {
    if !queryStarted {
      ctx.cache := NEVER;
      return -1;
    }
    var j := 0;
    while j < |rows|
      invariant 0 <= j <= |rows|
      invariant ItemsFrom(rows, 0, itemMode, ctx.individual, handler, fetchError, old(ctx.cache), old(ctx.persistentid)) ==
                ItemsFrom(rows, j, itemMode, ctx.individual, handler, fetchError, ctx.cache, ctx.persistentid)
    {
      var row := rows[j];
      // Save the first songalbumid, process_group may need it
      if ctx.persistentid == 0 {
        ctx.persistentid := row.songAlbumId;
      }
      if itemMode && !ctx.individual {
        return -1;
      }
      if !RowUsable(row) {
        j := j + 1;
        continue;
      }
      var w := WalkSources(ctx, ItemSources, row.dataKind, (k: nat) => handler(k, row));
      if w.Hit? {
        return w.ret;
      }
      j := j + 1;
    }
    if fetchError {
      ctx.cache := NEVER;
    }
    return -1;
  }

  /** source_group_cache_get: the answer of the artwork cache lookup, which
      reports an error, no entry, or an entry with its format (0 for a
      cached miss). */
  function GroupCacheGet(lookupFailed: bool, cached: bool, format: int): (r: int)
    ensures lookupFailed ==> r == ART_E_ERROR
    ensures !lookupFailed && !cached ==> r == ART_E_NONE
    ensures !lookupFailed && cached && format == 0 ==> r == ART_E_ABORT
    ensures !lookupFailed && cached && format != 0 ==> r == format
  {
    if lookupFailed then ART_E_ERROR
    else if !cached then ART_E_NONE
    else if format == 0 then ART_E_ABORT
    else format
  }

  /** A cached miss stops the group search at once: process_group then
      returns -1 and caches nothing, without asking the directory source. */
  lemma CachedMissStopsGroupSearch(handler: nat -> int)
    requires handler(0) == GroupCacheGet(false, true, 0)
    ensures WalkFrom(GroupSources, None, handler, 0) == Abort
    ensures CacheAfter(GroupSources, Abort, ON_FAILURE) == NEVER
  {
  }

  /** process_group. groupHandler gives each group source's answer; the item
      query that follows (process_items in group mode) is described by
      queryStarted, rows, fetchError and itemHandler. */
  method ProcessGroup(ctx: ArtworkCtx, groupHandler: nat -> int, queryStarted: bool, rows: seq<ItemRow>,
                      fetchError: bool, itemHandler: ItemHandler) returns (ret: int)
    modifies ctx`cache, ctx`persistentid
    ensures old(ctx.persistentid) == 0 ==> ret == -1 && ctx.cache == NEVER
    ensures old(ctx.persistentid) != 0 ==>
              var w := WalkFrom(GroupSources, None, groupHandler, 0);
              (w.Hit? ==> ret == w.ret && ctx.cache == CacheAfter(GroupSources, w, old(ctx.cache))) &&
              (w.Abort? ==> ret == -1 && ctx.cache == NEVER) &&
              (w.Miss? && !queryStarted ==> ret == -1 && ctx.cache == NEVER) &&
              (w.Miss? && queryStarted ==>
                 Items(ret, ctx.cache, ctx.persistentid) ==
                 ItemsFrom(rows, 0, false, ctx.individual, itemHandler, fetchError,
                           CacheAfter(GroupSources, w, old(ctx.cache)), old(ctx.persistentid)))
  {
    if ctx.persistentid == 0 {
      ctx.cache := NEVER;
      return -1;
    }
    var w := WalkSources(ctx, GroupSources, None, groupHandler);
    if w.Hit? {
      return w.ret;
    } else if w.Abort? {
      return -1;
    }
    ret := ProcessItems(ctx, false, queryStarted, rows, fetchError, itemHandler);
  }
}
