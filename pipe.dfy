/** The pipe input: the list of named pipes watched for data, kept in step
    with the library's pipes by pipe_watch_update, and the Shairport
    metadata pipe, whose <item>...</item> frames are cut from a buffer and
    decoded into track metadata, playback progress and artwork.

    File descriptors, events, threads, the XML parser and the base64
    decoder are outside the model: what they produce is a parameter. */
module PipeInput {
  import opened Common

  /** Maximum number of pipes to watch for data. */
  const PIPE_MAX_WATCH: nat := 4
  /** Pictures larger than this are ignored. */
  const PIPE_PICTURE_SIZE_MAX: nat := 262144

  /* ------------------------------ Pipe lists ------------------------------ */

  datatype PipeType = Pcm | Metadata

  /** struct pipe without its file descriptor, event and callback. */
  datatype Pipe = Pipe(id: int, path: string, kind: PipeType)

  /** The index of the first pipe with the given id, if any. */
  function IndexOfId(ps: seq<Pipe>, id: int): (r: Option<nat>)
    ensures r.Some? ==> r.value < |ps| && ps[r.value].id == id
    decreases |ps|
  {
    if ps == [] then None
    else if ps[0].id == id then Some(0)
    else
      match IndexOfId(ps[1..], id)
      case None => None
      case Some(k) => Some(k + 1)
  }

  /** IndexOfId finds the first pipe with the id, and none exactly when no
      pipe has it. */
  lemma {:induction false} IndexOfIdMeaning(ps: seq<Pipe>, id: int)
    ensures IndexOfId(ps, id).None? ==> forall k :: 0 <= k < |ps| ==> ps[k].id != id
    ensures IndexOfId(ps, id).Some? ==> forall k :: 0 <= k < IndexOfId(ps, id).value ==> ps[k].id != id
    decreases |ps|
  {
    if ps != [] && ps[0].id != id {
      IndexOfIdMeaning(ps[1..], id);
      assert forall k :: 1 <= k < |ps| ==> ps[k] == ps[1..][k - 1];
    }
  }

  /** Conversely, the first index holding the id is what IndexOfId finds. */
  lemma {:induction false} IndexOfIdAt(ps: seq<Pipe>, id: int, i: nat)
    requires i <= |ps| && forall k :: 0 <= k < i ==> ps[k].id != id
    requires i < |ps| ==> ps[i].id == id
    ensures IndexOfId(ps, id) == if i < |ps| then Some(i) else None
    decreases i
  {
    if i > 0 {
      assert ps[0].id != id;
      IndexOfIdAt(ps[1..], id, i - 1);
    }
  }

  /** A list holding a pipe with the id has one found by IndexOfId. */
  lemma HasIdAt(ps: seq<Pipe>, id: int, i: nat)
    requires i < |ps| && ps[i].id == id
    ensures IndexOfId(ps, id).Some?
  {
    IndexOfIdMeaning(ps, id);
  }

  predicate DistinctIds(ps: seq<Pipe>)
  {
    forall i, j :: 0 <= i < j < |ps| ==> ps[i].id != ps[j].id
  }

  /** The list with the pipe at the given index unlinked (none: unchanged). */
  function Without(ps: seq<Pipe>, at: Option<nat>): seq<Pipe>
    requires at.Some? ==> at.value < |ps|
  {
    match at
    case None => ps
    case Some(k) => ps[..k] + ps[k + 1..]
  }

  /** pipelist_find: the first pipe with the id, or none. */
  method FindPipe(list: seq<Pipe>, id: int) returns (p: Option<Pipe>)
    ensures p.None? <==> IndexOfId(list, id).None?
    ensures p.Some? ==> p.value == list[IndexOfId(list, id).value]
  {
    var i := 0;
    while i < |list|
      invariant 0 <= i <= |list|
      invariant forall k :: 0 <= k < i ==> list[k].id != id
    {
      if id == list[i].id {
        IndexOfIdAt(list, id, i);
        return Some(list[i]);
      }
      i := i + 1;
    }
    IndexOfIdAt(list, id, i);
    return None;
  }

  /** A list of pipes linked through their next pointers: the watch list. */
  class PipeList {
    var pipes: seq<Pipe>

    constructor (pipes: seq<Pipe>)
      ensures this.pipes == pipes
    {
      this.pipes := pipes;
    }

    /** pipelist_add: the new pipe goes to the head, the old list follows. */
    method Add(pipe: Pipe)
      modifies this
      ensures pipes == [pipe] + old(pipes)
    {
      pipes := [pipe] + pipes;
    }

    /** pipelist_remove: unlink the first pipe with the id of the argument,
        which must be that pipe; nothing happens when the id is absent. */
    method Remove(pipe: Pipe)
      requires IndexOfId(pipes, pipe.id).Some? ==> pipes[IndexOfId(pipes, pipe.id).value] == pipe
      modifies this
      ensures pipes == Without(old(pipes), IndexOfId(old(pipes), pipe.id))
    {
      var i := 0;
      while i < |pipes|
        invariant 0 <= i <= |pipes|
        invariant forall k :: 0 <= k < i ==> pipes[k].id != pipe.id
      {
        if pipes[i].id == pipe.id {
          break;
        }
        i := i + 1;
      }
      IndexOfIdAt(pipes, pipe.id, i);
      if i == |pipes| {
        return;
      }
      pipes := pipes[..i] + pipes[i + 1..];
    }
  }

  /** Adding a pipe and then removing it gives back the old list. */
  lemma RemoveUndoesAdd(ps: seq<Pipe>, pipe: Pipe)
    ensures Without([pipe] + ps, IndexOfId([pipe] + ps, pipe.id)) == ps
  {
  }

  /** Removal from a list of distinct ids takes out the pipe with that id
      and keeps the others, in their order and with distinct ids. */
  lemma {:induction false} RemoveKeepsOthers(ps: seq<Pipe>, id: int)
    requires DistinctIds(ps)
    ensures var r := Without(ps, IndexOfId(ps, id));
            IndexOfId(r, id).None? && DistinctIds(r) &&
            |r| == (if IndexOfId(ps, id).Some? then |ps| - 1 else |ps|) &&
            forall i :: 0 <= i < |ps| && ps[i].id != id ==> ps[i] in r
  {
    var r := Without(ps, IndexOfId(ps, id));
    match IndexOfId(ps, id)
    case None =>
    case Some(k) =>
      assert forall i :: 0 <= i < |r| ==> r[i] == (if i < k then ps[i] else ps[i + 1]);
      forall i | 0 <= i < |ps| && ps[i].id != id
        ensures ps[i] in r
      {
        assert r[if i < k then i else i - 1] == ps[i];
      }
      IndexOfIdAt(r, id, |r|);
  }

  /** The first loop of pipe_watch_update: the watched pipes whose id is
      still among the incoming ones, in their order. */
  function Kept(watch: seq<Pipe>, incoming: seq<Pipe>): (r: seq<Pipe>)
    ensures |r| <= |watch|
  {
    if watch == [] then []
    else
      var last := watch[|watch| - 1];
      Kept(watch[..|watch| - 1], incoming) + (if IndexOfId(incoming, last.id).Some? then [last] else [])
  }

  /** The kept pipes are exactly the watched ones whose id is incoming, and
      their ids stay distinct. */
  lemma {:induction false} KeptFacts(watch: seq<Pipe>, incoming: seq<Pipe>)
    requires DistinctIds(watch)
    ensures var r := Kept(watch, incoming);
            DistinctIds(r) &&
            (forall j :: 0 <= j < |r| ==> r[j] in watch && IndexOfId(incoming, r[j].id).Some?) &&
            (forall j :: 0 <= j < |watch| && IndexOfId(incoming, watch[j].id).Some? ==> watch[j] in r)
  {
    if watch != [] {
      var init := watch[..|watch| - 1];
      var last := watch[|watch| - 1];
      assert watch == init + [last];
      KeptFacts(init, incoming);
      var ki := Kept(init, incoming);
      forall j | 0 <= j < |ki|
        ensures ki[j].id != last.id
      {
        var m :| 0 <= m < |init| && init[m] == ki[j];
        assert watch[m] == ki[j];
      }
    }
  }

  /** The second loop of pipe_watch_update from index i on: an incoming
      pipe is added at the head when its index is at most PIPE_MAX_WATCH
      and its id is not watched yet. */
  function AdmitFrom(watch: seq<Pipe>, incoming: seq<Pipe>, i: nat): seq<Pipe>
    requires i <= |incoming|
    decreases |incoming| - i
  {
    if i == |incoming| then watch
    else if i <= PIPE_MAX_WATCH && IndexOfId(watch, incoming[i].id).None? then
      AdmitFrom([incoming[i]] + watch, incoming, i + 1)
    else AdmitFrom(watch, incoming, i + 1)
  }

  /** The pipe is incoming at an index from i to PIPE_MAX_WATCH. */
  predicate Admitted(incoming: seq<Pipe>, i: nat, q: Pipe)
  {
    exists k :: i <= k < |incoming| && k <= PIPE_MAX_WATCH && incoming[k] == q
  }

  lemma AdmittedWidens(incoming: seq<Pipe>, i: nat, q: Pipe)
    requires Admitted(incoming, i + 1, q)
    ensures Admitted(incoming, i, q)
  {
    var k :| i + 1 <= k < |incoming| && k <= PIPE_MAX_WATCH && incoming[k] == q;
  }

  /** The admitted pipes go in front of the list. */
  lemma {:induction false} AdmitSuffix(watch: seq<Pipe>, incoming: seq<Pipe>, i: nat)
    requires i <= |incoming|
    ensures var r := AdmitFrom(watch, incoming, i);
            |watch| <= |r| && r[|r| - |watch|..] == watch
    decreases |incoming| - i
  {
    if i < |incoming| {
      var admit := i <= PIPE_MAX_WATCH && IndexOfId(watch, incoming[i].id).None?;
      var w := if admit then [incoming[i]] + watch else watch;
      AdmitSuffix(w, incoming, i + 1);
      var r := AdmitFrom(w, incoming, i + 1);
      if admit {
        assert r[|r| - |watch|..] == r[|r| - |w|..][1..];
      }
    }
  }

  /** Each admitted pipe is an incoming pipe at an index from i to
      PIPE_MAX_WATCH. */
  lemma {:induction false} AdmitHeads(watch: seq<Pipe>, incoming: seq<Pipe>, i: nat)
    requires i <= |incoming|
    ensures var r := AdmitFrom(watch, incoming, i);
            forall j :: 0 <= j < |r| - |watch| ==> Admitted(incoming, i, r[j])
    decreases |incoming| - i
  {
    if i < |incoming| {
      var admit := i <= PIPE_MAX_WATCH && IndexOfId(watch, incoming[i].id).None?;
      var w := if admit then [incoming[i]] + watch else watch;
      AdmitHeads(w, incoming, i + 1);
      AdmitSuffix(w, incoming, i + 1);
      var r := AdmitFrom(w, incoming, i + 1);
      forall j | 0 <= j < |r| - |watch|
        ensures Admitted(incoming, i, r[j])
      {
        if j < |r| - |w| {
          AdmittedWidens(incoming, i, r[j]);
        } else {
          assert r[j] == r[|r| - |w|..][0] == incoming[i];
        }
      }
    }
  }

  /** Admission keeps the ids distinct. */
  lemma {:induction false} AdmitDistinct(watch: seq<Pipe>, incoming: seq<Pipe>, i: nat)
    requires i <= |incoming| && DistinctIds(watch)
    ensures DistinctIds(AdmitFrom(watch, incoming, i))
    decreases |incoming| - i
  {
    if i < |incoming| {
      if i <= PIPE_MAX_WATCH && IndexOfId(watch, incoming[i].id).None? {
        IndexOfIdMeaning(watch, incoming[i].id);
        var w := [incoming[i]] + watch;
        forall a, b | 0 <= a < b < |w|
          ensures w[a].id != w[b].id
        {
          assert w[b] == watch[b - 1];
          if a > 0 {
            assert w[a] == watch[a - 1];
          }
        }
        AdmitDistinct(w, incoming, i + 1);
      } else {
        AdmitDistinct(watch, incoming, i + 1);
      }
    }
  }

  /** Admission only adds pipes: an id watched before stays watched. */
  lemma {:induction false} AdmitKeepsId(watch: seq<Pipe>, incoming: seq<Pipe>, i: nat, id: int)
    requires i <= |incoming| && IndexOfId(watch, id).Some?
    ensures IndexOfId(AdmitFrom(watch, incoming, i), id).Some?
    decreases |incoming| - i
  {
    if i < |incoming| {
      if i <= PIPE_MAX_WATCH && IndexOfId(watch, incoming[i].id).None? {
        var w := [incoming[i]] + watch;
        var at := IndexOfId(watch, id).value;
        assert w[at + 1] == watch[at];
        HasIdAt(w, id, at + 1);
        AdmitKeepsId(w, incoming, i + 1, id);
      } else {
        AdmitKeepsId(watch, incoming, i + 1, id);
      }
    }
  }

  /** Every incoming pipe at an index from i to PIPE_MAX_WATCH has its id
      watched afterwards. */
  lemma {:induction false} AdmitCovers(watch: seq<Pipe>, incoming: seq<Pipe>, i: nat)
    requires i <= |incoming|
    ensures forall k :: i <= k < |incoming| && k <= PIPE_MAX_WATCH ==>
              IndexOfId(AdmitFrom(watch, incoming, i), incoming[k].id).Some?
    decreases |incoming| - i
  {
    if i < |incoming| {
      var id := incoming[i].id;
      var admit := i <= PIPE_MAX_WATCH && IndexOfId(watch, id).None?;
      var w := if admit then [incoming[i]] + watch else watch;
      AdmitCovers(w, incoming, i + 1);
      if i <= PIPE_MAX_WATCH {
        if admit {
          HasIdAt(w, id, 0);
        }
        AdmitKeepsId(w, incoming, i + 1, id);
      }
    }
  }

  /** The watch list pipe_watch_update leaves. */
  function Reconciled(watch: seq<Pipe>, incoming: seq<Pipe>): seq<Pipe>
  {
    AdmitFrom(Kept(watch, incoming), incoming, 0)
  }

  /** What pipe_watch_update promises: the watched ids stay distinct; every
      watched pipe has its id among the incoming ones; the watched pipes
      still incoming stay; every incoming pipe at an index up to
      PIPE_MAX_WATCH is watched; and every watched pipe was watched before
      or is incoming at such an index, so one incoming only further down
      the list is dropped. */
  lemma WatchUpdateFacts(watch: seq<Pipe>, incoming: seq<Pipe>)
    requires DistinctIds(watch)
    ensures var r := Reconciled(watch, incoming);
            DistinctIds(r) &&
            (forall j :: 0 <= j < |r| ==> IndexOfId(incoming, r[j].id).Some?) &&
            (forall j :: 0 <= j < |watch| && IndexOfId(incoming, watch[j].id).Some? ==> watch[j] in r) &&
            (forall k :: 0 <= k < |incoming| && k <= PIPE_MAX_WATCH ==> IndexOfId(r, incoming[k].id).Some?) &&
            (forall j :: 0 <= j < |r| ==> r[j] in watch || Admitted(incoming, 0, r[j]))
  {
    var kept := Kept(watch, incoming);
    var r := Reconciled(watch, incoming);
    KeptFacts(watch, incoming);
    AdmitDistinct(kept, incoming, 0);
    AdmitSuffix(kept, incoming, 0);
    AdmitHeads(kept, incoming, 0);
    AdmitCovers(kept, incoming, 0);
    var d := |r| - |kept|;
    forall j | 0 <= j < |r|
      ensures IndexOfId(incoming, r[j].id).Some?
      ensures r[j] in watch || Admitted(incoming, 0, r[j])
    {
      if j >= d {
        assert r[j] == r[d..][j - d] == kept[j - d];
      } else {
        var k :| 0 <= k < |incoming| && k <= PIPE_MAX_WATCH && incoming[k] == r[j];
        HasIdAt(incoming, r[j].id, k);
      }
    }
    forall j | 0 <= j < |watch| && IndexOfId(incoming, watch[j].id).Some?
      ensures watch[j] in r
    {
      var m :| 0 <= m < |kept| && kept[m] == watch[j];
      assert r[d..][m] == r[d + m];
    }
  }

  /** One step of the first loop: the visited pipe is either kept, or it is
      the first pipe with its id in the list being walked, which loses
      exactly that pipe. */
  lemma {:induction false} DropStep(nodes: seq<Pipe>, incoming: seq<Pipe>, k: nat)
    requires DistinctIds(nodes) && k < |nodes|
    ensures var cur := Kept(nodes[..k], incoming) + nodes[k..];
            var next := Kept(nodes[..k + 1], incoming) + nodes[k + 1..];
            (IndexOfId(incoming, nodes[k].id).Some? ==> next == cur) &&
            (IndexOfId(incoming, nodes[k].id).None? ==>
               IndexOfId(cur, nodes[k].id) == Some(|Kept(nodes[..k], incoming)|) &&
               cur[|Kept(nodes[..k], incoming)|] == nodes[k] &&
               Without(cur, Some(|Kept(nodes[..k], incoming)|)) == next)
  {
    var kept := Kept(nodes[..k], incoming);
    var cur := kept + nodes[k..];
    assert nodes[..k + 1][..k] == nodes[..k];
    assert nodes[..k + 1][k] == nodes[k];
    assert nodes[k..] == [nodes[k]] + nodes[k + 1..];
    if IndexOfId(incoming, nodes[k].id).None? {
      assert DistinctIds(nodes[..k]);
      KeptFacts(nodes[..k], incoming);
      forall j | 0 <= j < |kept|
        ensures cur[j].id != nodes[k].id
      {
        var m :| 0 <= m < k && nodes[..k][m] == kept[j];
        assert nodes[m] == kept[j];
      }
      IndexOfIdAt(cur, nodes[k].id, |kept|);
      assert cur[..|kept|] == kept;
      assert cur[|kept| + 1..] == nodes[k + 1..];
    }
  }

  /** The first loop of pipe_watch_update: the watched pipes that are gone
      from the incoming list are unlinked. The loop walks the original
      nodes, saving each next pointer before the node may be removed. */
  method DropGone(watch: PipeList, incoming: seq<Pipe>)
    requires DistinctIds(watch.pipes)
    modifies watch
    ensures watch.pipes == Kept(old(watch.pipes), incoming)
  {
    var nodes := watch.pipes;
    var k := 0;
    while k < |nodes|
      invariant 0 <= k <= |nodes|
      invariant watch.pipes == Kept(nodes[..k], incoming) + nodes[k..]
    {
      var pipe := nodes[k];
      DropStep(nodes, incoming, k);
      var found := FindPipe(incoming, pipe.id);
      if found.None? {
        watch.Remove(pipe);
      }
      k := k + 1;
    }
    assert nodes[..k] == nodes && nodes[k..] == [];
  }

  /** The second loop of pipe_watch_update. The cap is tested as
      count > PIPE_MAX_WATCH, so the pipes at indexes 0 to PIPE_MAX_WATCH
      are admitted. */
  method AdmitNew(watch: PipeList, incoming: seq<Pipe>)
    modifies watch
    ensures watch.pipes == AdmitFrom(old(watch.pipes), incoming, 0)
  {
    var count := 0;
    while count < |incoming|
      invariant 0 <= count <= |incoming|
      invariant AdmitFrom(old(watch.pipes), incoming, 0) == AdmitFrom(watch.pipes, incoming, count)
    {
      var pipe := incoming[count];
      if count > PIPE_MAX_WATCH {
        count := count + 1;
        continue;
      }
      var found := FindPipe(watch.pipes, pipe.id);
      if found.None? {
        watch.Add(pipe);
      }
      count := count + 1;
    }
  }

  /** pipe_watch_update: drop the watched pipes that are no longer in the
      incoming list, then add the incoming pipes not yet watched, up to the
      cap (see WatchUpdateFacts for what that guarantees). */
  method WatchUpdate(watch: PipeList, incoming: seq<Pipe>)
    requires DistinctIds(watch.pipes)
    modifies watch
    ensures watch.pipes == Reconciled(old(watch.pipes), incoming)
  {
    // Removes pipes that are gone from the watchlist
    DropGone(watch, incoming);
    // Looks for new pipes and adds them to the watchlist
    AdmitNew(watch, incoming);
  }

  /* ------------------------- Shairport metadata ------------------------- */

  /** Unsigned 64-bit values, as safe_atou64 produces them. */
  type U64 = x: int | 0 <= x < 0x1_0000_0000_0000_0000

  const SLASH: bv8 := 0x2f

  /** A four-character DMAP content code such as "asal", in ASCII. */
  predicate IsCode(s: string)
  {
    |s| == 4 && forall i :: 0 <= i < 4 ==> s[i] < 128 as char
  }

  /** dmapval: the four characters packed big-endian into 32 bits. */
  function DmapVal(s: string): (r: nat)
    requires IsCode(s)
    ensures r < 0x8000_0000
  {
    (s[0] as nat) * 0x100_0000 + (s[1] as nat) * 0x1_0000 + (s[2] as nat) * 0x100 + (s[3] as nat)
  }

  /** The four characters of a packed code, most significant byte first. */
  function CodeOf(v: nat): (s: string)
    requires v < 0x8000_0000
    ensures |s| == 4
  {
    [(v / 0x100_0000) as char, (v / 0x1_0000 % 0x100) as char, (v / 0x100 % 0x100) as char, (v % 0x100) as char]
  }

  /** Unpacking a packed code gives the code back, so no two codes share
      a value. */
  lemma DmapRoundTrip(s: string)
    requires IsCode(s)
    ensures CodeOf(DmapVal(s)) == s
  {
    var a, b, c, d := s[0] as nat, s[1] as nat, s[2] as nat, s[3] as nat;
    var v := DmapVal(s);
    assert v / 0x100_0000 == a;
    assert v / 0x1_0000 == a * 0x100 + b;
    assert v / 0x100 == a * 0x1_0000 + b * 0x100 + c;
    assert v % 0x100 == d;
    assert (a * 0x100 + b) % 0x100 == b;
    assert (a * 0x1_0000 + b * 0x100 + c) % 0x100 == c;
  }

  lemma DmapInjective(s: string, t: string)
    requires IsCode(s) && IsCode(t)
    ensures DmapVal(s) == DmapVal(t) ==> s == t
  {
    DmapRoundTrip(s);
    DmapRoundTrip(t);
  }

  datatype Field = Album | Artist | Title | Genre

  /** Where handle_item sends an item's data, by its code. */
  datatype Target = SetField(field: Field) | Progress | Volume | Picture | Ignored

  /** The packed codes handle_item acts on. */
  const HandledCodes: seq<nat> := [DmapVal("asal"), DmapVal("asar"), DmapVal("minm"), DmapVal("asgn"),
                                   DmapVal("prgr"), DmapVal("pvol"), DmapVal("PICT")]

  /** A code is acted on exactly when it is one of the seven handled codes. */
  function Dispatch(code: nat): (t: Target)
    ensures t != Ignored <==> code in HandledCodes
  {
    if code == DmapVal("asal") then SetField(Album)
    else if code == DmapVal("asar") then SetField(Artist)
    else if code == DmapVal("minm") then SetField(Title)
    else if code == DmapVal("asgn") then SetField(Genre)
    else if code == DmapVal("prgr") then Progress
    else if code == DmapVal("pvol") then Volume
    else if code == DmapVal("PICT") then Picture
    else Ignored
  }

  /** The dispatch on packed values is the dispatch on the code's name:
      album, artist, title and genre codes set that field, prgr, pvol and
      PICT go to their handlers, and every other code is ignored. */
  lemma DispatchByName(s: string)
    requires IsCode(s)
    ensures Dispatch(DmapVal(s)) ==
              if s == "asal" then SetField(Album)
              else if s == "asar" then SetField(Artist)
              else if s == "minm" then SetField(Title)
              else if s == "asgn" then SetField(Genre)
              else if s == "prgr" then Progress
              else if s == "pvol" then Volume
              else if s == "PICT" then Picture
              else Ignored
  {
    if s != "asal" { DmapInjective(s, "asal"); }
    if s != "asar" { DmapInjective(s, "asar"); }
    if s != "minm" { DmapInjective(s, "minm"); }
    if s != "asgn" { DmapInjective(s, "asgn"); }
    if s != "prgr" { DmapInjective(s, "prgr"); }
    if s != "pvol" { DmapInjective(s, "pvol"); }
    if s != "PICT" { DmapInjective(s, "PICT"); }
  }

  /** The parts of struct input_metadata the metadata pipe writes. */
  datatype Meta = Meta(album: Option<seq<bv8>>, artist: Option<seq<bv8>>, title: Option<seq<bv8>>,
                       genre: Option<seq<bv8>>, posMs: int, lenMs: int, artworkUrl: Option<string>)

  class InputMetadata {
    var album: Option<seq<bv8>>
    var artist: Option<seq<bv8>>
    var title: Option<seq<bv8>>
    var genre: Option<seq<bv8>>
    var posMs: int
    var lenMs: int
    var artworkUrl: Option<string>

    function Value(): Meta
      reads this
    {
      Meta(album, artist, title, genre, posMs, lenMs, artworkUrl)
    }

    constructor ()
      ensures Value() == Meta(None, None, None, None, 0, 0, None)
    {
      album, artist, title, genre := None, None, None, None;
      posMs, lenMs := 0, 0;
      artworkUrl := None;
    }
  }

  /** What the pipe module takes from outside: the configured sample rate,
      safe_atou64, and the picture tmpfile, which for an extension and the
      picture bytes gives the tmpfile's path when creating and writing it
      succeeds. */
  datatype Env = Env(rate: int, toU64: seq<bv8> -> U64, store: (string, seq<bv8>) -> Option<string>)

  /** The bytes up to the first NUL, as string functions see them. */
  function CStr(s: seq<bv8>): (r: seq<bv8>)
    ensures |r| <= |s| && r == s[..|r|] && 0 !in r
    ensures |r| < |s| ==> s[|r|] == 0
  {
    if s == [] || s[0] == 0 then []
    else
      var r := [s[0]] + CStr(s[1..]);
      assert s[..|r|] == [s[0]] + s[1..][..|r| - 1];
      r
  }

  /** The length of the run of non-'/' bytes at the start. */
  function TokenLen(s: seq<bv8>): (n: nat)
    ensures n <= |s| && SLASH !in s[..n] && (n < |s| ==> s[n] == SLASH)
    ensures s != [] && s[0] != SLASH ==> n > 0
  {
    if s == [] || s[0] == SLASH then 0
    else
      var n := 1 + TokenLen(s[1..]);
      assert s[..n] == [s[0]] + s[1..][..n - 1];
      n
  }

  /** strtok_r with delimiter "/": the maximal non-empty runs of non-'/'
      bytes, in order. */
  function Tokens(s: seq<bv8>): (r: seq<seq<bv8>>)
    ensures forall k :: 0 <= k < |r| ==> r[k] != [] && SLASH !in r[k]
    decreases |s|
  {
    if s == [] then []
    else if s[0] == SLASH then Tokens(s[1..])
    else
      var n := TokenLen(s);
      [s[..n]] + Tokens(s[n..])
  }

  lemma {:induction false} TokenLenOfField(x: seq<bv8>, rest: seq<bv8>)
    requires SLASH !in x
    requires rest == [] || rest[0] == SLASH
    ensures TokenLen(x + rest) == |x|
  {
    if x != [] {
      assert (x + rest)[1..] == x[1..] + rest;
      TokenLenOfField(x[1..], rest);
    }
  }

  lemma {:induction false} CStrOfText(s: seq<bv8>)
    requires 0 !in s
    ensures CStr(s) == s
  {
    if s != [] {
      CStrOfText(s[1..]);
    }
  }

  /** A field followed by '/' is the first token. */
  lemma TokensAfterField(x: seq<bv8>, rest: seq<bv8>)
    requires x != [] && SLASH !in x
    ensures Tokens(x + [SLASH] + rest) == [x] + Tokens(rest)
  {
    var s := x + [SLASH] + rest;
    TokenLenOfField(x, [SLASH] + rest);
    assert s == x + ([SLASH] + rest);
    assert s[..|x|] == x;
    assert s[|x|..] == [SLASH] + rest;
    assert ([SLASH] + rest)[1..] == rest;
  }

  /** A last field is the only token. */
  lemma TokensOfLastField(x: seq<bv8>)
    requires x != [] && SLASH !in x
    ensures Tokens(x) == [x]
  {
    TokenLenOfField(x, []);
    assert x + [] == x;
    assert x[..|x|] == x && x[|x|..] == [];
  }

  /** Splitting "start/pos/end" gives back the three fields. */
  lemma TokensOfFields(a: seq<bv8>, b: seq<bv8>, c: seq<bv8>)
    requires a != [] && b != [] && c != []
    requires SLASH !in a && SLASH !in b && SLASH !in c
    ensures Tokens(a + [SLASH] + b + [SLASH] + c) == [a, b, c]
  {
    TokensAfterField(a, b + [SLASH] + c);
    assert a + [SLASH] + b + [SLASH] + c == a + [SLASH] + (b + [SLASH] + c);
    TokensAfterField(b, c);
    TokensOfLastField(c);
  }

  /** (t - start) * 1000 / pipe_sample_rate in uint64_t arithmetic. */
  function Elapsed(start: U64, t: U64, rate: int): int
    requires 0 < rate && start < t
  {
    ((t - start) * 1000 % 0x1_0000_0000_0000_0000) / rate
  }

  /** handle_progress on the metadata: the three '/'-separated fields are
      the start, current and end positions in samples. */
  function ProgressUpdate(md: Meta, progress: seq<bv8>, env: Env): (r: Meta)
    requires env.rate > 0
    ensures r == md.(posMs := r.posMs, lenMs := r.lenMs)
    ensures r != md ==>
              var t := Tokens(CStr(progress));
              |t| >= 3 && env.toU64(t[0]) != 0 && env.toU64(t[1]) != 0 && env.toU64(t[2]) != 0
    ensures r.posMs != md.posMs ==> env.toU64(Tokens(CStr(progress))[1]) > env.toU64(Tokens(CStr(progress))[0])
    ensures r.lenMs != md.lenMs ==> env.toU64(Tokens(CStr(progress))[2]) > env.toU64(Tokens(CStr(progress))[0])
  {
    var t := Tokens(CStr(progress));
    if |t| < 3 then md
    else
      var start, pos, end := env.toU64(t[0]), env.toU64(t[1]), env.toU64(t[2]);
      if start == 0 || pos == 0 || end == 0 then md
      else
        md.(posMs := if pos > start then Elapsed(start, pos, env.rate) else md.posMs,
            lenMs := if end > start then Elapsed(start, end, env.rate) else md.lenMs)
  }

  /** A progress text "start/pos/end" with non-zero fields sets the
      position and length in milliseconds when they lie after the start. */
  lemma ProgressOfFields(md: Meta, a: seq<bv8>, b: seq<bv8>, c: seq<bv8>, env: Env)
    requires env.rate > 0
    requires a != [] && b != [] && c != []
    requires SLASH !in a && SLASH !in b && SLASH !in c && 0 !in a && 0 !in b && 0 !in c
    requires 0 < env.toU64(a) && 0 < env.toU64(c)
    requires env.toU64(a) < env.toU64(b)
    ensures var r := ProgressUpdate(md, a + [SLASH] + b + [SLASH] + c, env);
            r.posMs == Elapsed(env.toU64(a), env.toU64(b), env.rate) &&
            r.lenMs == (if env.toU64(c) > env.toU64(a) then Elapsed(env.toU64(a), env.toU64(c), env.rate) else md.lenMs)
  {
    var s := a + [SLASH] + b + [SLASH] + c;
    CStrOfText(s);
    TokensOfFields(a, b, c);
  }

  /** handle_progress */
  method HandleProgress(m: InputMetadata, progress: seq<bv8>, env: Env)
    requires env.rate > 0
    modifies m`posMs, m`lenMs
    ensures m.Value() == ProgressUpdate(old(m.Value()), progress, env)
  {
    var t := Tokens(CStr(progress));
    if |t| < 1 {
      return;
    }
    var start := env.toU64(t[0]);
    if |t| < 2 {
      return;
    }
    var pos := env.toU64(t[1]);
    if |t| < 3 {
      return;
    }
    var end := env.toU64(t[2]);
    if start == 0 || pos == 0 || end == 0 {
      return;
    }
    if pos > start {
      m.posMs := Elapsed(start, pos, env.rate);
    }
    if end > start {
      m.lenMs := Elapsed(start, end, env.rate);
    }
  }

  /** The tmpfile extension for a picture: JPEG and PNG are recognised by
      their first two bytes, and only sizes from 2 to PIPE_PICTURE_SIZE_MAX
      are accepted. */
  function PictureExt(data: seq<bv8>): (r: Option<string>)
    ensures r == Some(".jpg") <==>
              2 <= |data| <= PIPE_PICTURE_SIZE_MAX && data[0] == 0xff && data[1] == 0xd8
    ensures r == Some(".png") <==>
              2 <= |data| <= PIPE_PICTURE_SIZE_MAX && data[0] == 0x89 && data[1] == 0x50
    ensures r.None? || r == Some(".jpg") || r == Some(".png")
  {
    if |data| < 2 || |data| > PIPE_PICTURE_SIZE_MAX then None
    else if data[0] == 0xff && data[1] == 0xd8 then Some(".jpg")
    else if data[0] == 0x89 && data[1] == 0x50 then Some(".png")
    else None
  }

  /** handle_picture on the metadata: the old artwork URL is always dropped;
      a new one, "file:" and the tmpfile path, is set only for an accepted
      picture that was stored. */
  function PictureUpdate(md: Meta, data: seq<bv8>, env: Env): (r: Meta)
    ensures r == md.(artworkUrl := r.artworkUrl)
    ensures r.artworkUrl.Some? <==> PictureExt(data).Some? && env.store(PictureExt(data).value, data).Some?
    ensures r.artworkUrl.Some? ==> r.artworkUrl.value == "file:" + env.store(PictureExt(data).value, data).value
  {
    match PictureExt(data)
    case None => md.(artworkUrl := None)
    case Some(ext) =>
      match env.store(ext, data)
      case None => md.(artworkUrl := None)
      case Some(path) => md.(artworkUrl := Some("file:" + path))
  }

  /** handle_picture */
  method HandlePicture(m: InputMetadata, data: seq<bv8>, env: Env)
    modifies m`artworkUrl
    ensures m.Value() == PictureUpdate(old(m.Value()), data, env)
  {
    m.artworkUrl := None;
    if |data| < 2 || |data| > PIPE_PICTURE_SIZE_MAX {
      return;
    }
    var ext;
    if data[0] == 0xff && data[1] == 0xd8 {
      ext := ".jpg";
    } else if data[0] == 0x89 && data[1] == 0x50 {
      ext := ".png";
    } else {
      return;
    }
    var path := env.store(ext, data);
    if path.None? {
      return;
    }
    m.artworkUrl := Some("file:" + path.value);
  }

  /** The data element of an item: missing, not valid base64, or decoded. */
  datatype DataElem = NoData | BadBase64 | Data(bytes: seq<bv8>)

  /** What the XML parser makes of an item: nothing, or its type and code
      (0 when missing) and its data element. */
  datatype ParsedItem = Unparsable | Parsed(typ: nat, code: nat, data: DataElem)

  /** The result of handle_item: 1 when the item carried metadata, 0 when it
      was of no interest, -1 on error. */
  function ItemRet(item: ParsedItem): (r: int)
    ensures r == -1 || r == 0 || r == 1
    ensures r == 1 <==> item.Parsed? && item.typ != 0 && item.code != 0 &&
                        Dispatch(item.code) != Ignored && item.data.Data?
    ensures r == -1 <==> item.Unparsable? || item.typ == 0 || item.code == 0 ||
                         (Dispatch(item.code) != Ignored && item.data.BadBase64?)
  {
    match item
    case Unparsable => -1
    case Parsed(typ, code, data) =>
      if typ == 0 || code == 0 then -1
      else if Dispatch(code).Ignored? then 0
      else match data
        case NoData => 0
        case BadBase64 => -1
        case Data(_) => 1
  }

  /** What handle_item does to the metadata. */
  function ItemUpdate(md: Meta, item: ParsedItem, env: Env): (r: Meta)
    requires env.rate > 0
    ensures ItemRet(item) != 1 ==> r == md
  {
    if ItemRet(item) != 1 then md
    else
      var bytes := item.data.bytes;
      match Dispatch(item.code)
      case SetField(Album) => md.(album := Some(bytes))
      case SetField(Artist) => md.(artist := Some(bytes))
      case SetField(Title) => md.(title := Some(bytes))
      case SetField(Genre) => md.(genre := Some(bytes))
      case Progress => ProgressUpdate(md, bytes, env)
      case Volume => md
      case Picture => PictureUpdate(md, bytes, env)
      case Ignored => md
  }

  /** handle_item */
  method HandleItem(m: InputMetadata, item: ParsedItem, env: Env) returns (ret: int)
    requires env.rate > 0
    modifies m
    ensures ret == ItemRet(item)
    ensures m.Value() == ItemUpdate(old(m.Value()), item, env)
  {
    if item.Unparsable? {
      return -1;
    }
    if item.typ == 0 || item.code == 0 {
      return -1;
    }
    var target := Dispatch(item.code);
    if target.Ignored? {
      return 0;
    }
    match item.data
    case NoData =>
      return 0;
    case BadBase64 =>
      return -1;
    case Data(bytes) =>
      if target.Progress? {
        HandleProgress(m, bytes, env);
      } else if target.Volume? {
        // handle_volume changes the player's volume, not the metadata
      } else if target.Picture? {
        HandlePicture(m, bytes, env);
      } else if target.field == Album {
        m.album := Some(bytes);
      } else if target.field == Artist {
        m.artist := Some(bytes);
      } else if target.field == Title {
        m.title := Some(bytes);
      } else {
        m.genre := Some(bytes);
      }
      return 1;
  }

  /** The end of a metadata frame. */
  const ITEM_END: string := "</item>"

  /** The evbuffer metadata is read into. */
  class MetadataBuffer {
    var data: string

    constructor (data: string)
      ensures this.data == data
    {
      this.data := data;
    }
  }

  /** The length of the first frame: the buffer's prefix through the first
      "</item>". */
  function FrameLen(buf: string): (r: Option<nat>)
    ensures r.Some? ==> |ITEM_END| <= r.value <= |buf|
    decreases |buf|
  {
    if |buf| < |ITEM_END| then None
    else if buf[..|ITEM_END|] == ITEM_END then Some(|ITEM_END|)
    else
      match FrameLen(buf[1..])
      case None => None
      case Some(n) => Some(n + 1)
  }

  /** The first frame ends right after the first occurrence of "</item>",
      as evbuffer_search finds it. */
  lemma {:induction false} FrameLenIsSearch(buf: string)
    ensures FrameLen(buf) == match Find(buf, ITEM_END)
                             case None => None
                             case Some(p) => Some(p + |ITEM_END|)
    decreases |buf|
  {
    if |buf| >= |ITEM_END| && buf[..|ITEM_END|] != ITEM_END {
      FrameLenIsSearch(buf[1..]);
    }
  }

  /** extract_item: remove and return the buffer's prefix through the first
      "</item>"; without one, return nothing and leave the buffer alone. */
  method ExtractItem(evbuf: MetadataBuffer) returns (item: Option<string>)
    modifies evbuf
    ensures FrameLen(old(evbuf.data)).None? ==> item.None? && evbuf.data == old(evbuf.data)
    ensures FrameLen(old(evbuf.data)).Some? ==>
              var size := FrameLen(old(evbuf.data)).value;
              item == Some(old(evbuf.data)[..size]) && evbuf.data == old(evbuf.data)[size..]
  {
    FrameLenIsSearch(evbuf.data);
    var pos := Find(evbuf.data, ITEM_END);
    if pos.None? {
      return None;
    }
    var size := pos.value + |ITEM_END|;
    item := Some(evbuf.data[..size]);
    evbuf.data := evbuf.data[size..];
  }

  /** The complete frames in a buffer, in order, and what follows them. */
  function Frames(buf: string): seq<string>
    decreases |buf|
  {
    match FrameLen(buf)
    case None => []
    case Some(n) => [buf[..n]] + Frames(buf[n..])
  }

  function Rest(buf: string): string
    decreases |buf|
  {
    match FrameLen(buf)
    case None => buf
    case Some(n) => Rest(buf[n..])
  }

  function Concat(fs: seq<string>): string
  {
    if fs == [] then [] else fs[0] + Concat(fs[1..])
  }

  /** One frame off the front of the buffer. */
  lemma FramesStep(buf: string, n: nat)
    requires FrameLen(buf) == Some(n)
    ensures Frames(buf) == [buf[..n]] + Frames(buf[n..])
    ensures Rest(buf) == Rest(buf[n..])
  {
  }

  lemma ConcatCons(f: string, fs: seq<string>)
    ensures Concat([f] + fs) == f + Concat(fs)
  {
    assert ([f] + fs)[1..] == fs;
  }

  /** A prefix and a split suffix glue back into the string. */
  lemma Glue(a: string, b: string, c: string, s: string)
    requires |a| <= |s| && a == s[..|a|] && b + c == s[|a|..]
    ensures (a + b) + c == s
  {
    assert (a + b) + c == a + (b + c);
  }

  /** The first frame is a whole frame by itself: its first "</item>" is
      the one at its end. */
  lemma {:induction false} FirstFrameEnd(buf: string, n: nat)
    requires FrameLen(buf) == Some(n)
    ensures FrameLen(buf[..n]) == Some(n)
    decreases |buf|
  {
    if buf[..|ITEM_END|] != ITEM_END {
      FirstFrameEnd(buf[1..], n - 1);
      assert buf[..n][1..] == buf[1..][..n - 1];
      assert buf[..n][..|ITEM_END|] == buf[..|ITEM_END|];
    }
  }

  /** The frames and the rest make up the buffer. */
  lemma {:induction false} FramesCover(buf: string)
    ensures Concat(Frames(buf)) + Rest(buf) == buf
    decreases |buf|
  {
    match FrameLen(buf)
    case None =>
    case Some(n) =>
      var frame, rest := buf[..n], buf[n..];
      FramesCover(rest);
      FramesStep(buf, n);
      ConcatCons(frame, Frames(rest));
      Glue(frame, Concat(Frames(rest)), Rest(rest), buf);
  }

  /** What follows the frames holds no "</item>". */
  lemma {:induction false} RestHasNoEnd(buf: string)
    ensures Find(Rest(buf), ITEM_END).None?
    decreases |buf|
  {
    FrameLenIsSearch(buf);
    match FrameLen(buf)
    case None =>
    case Some(n) =>
      RestHasNoEnd(buf[n..]);
  }

  /** Every frame is a whole frame by itself: it holds "</item>" once, at
      its end. */
  lemma {:induction false} FramesEnd(buf: string)
    ensures forall k :: 0 <= k < |Frames(buf)| ==> FrameLen(Frames(buf)[k]) == Some(|Frames(buf)[k]|)
    decreases |buf|
  {
    match FrameLen(buf)
    case None =>
    case Some(n) =>
      FramesEnd(buf[n..]);
      FirstFrameEnd(buf, n);
      FramesStep(buf, n);
      var fs := Frames(buf);
      assert forall k :: 1 <= k < |fs| ==> fs[k] == Frames(buf[n..])[k - 1];
  }

  /** The state pipe_metadata_handle leaves: its result, the metadata and
      the buffer. */
  datatype Drained = Drained(ret: int, md: Meta, rest: string)

  /** pipe_metadata_handle from a given point: found says whether an
      earlier item carried metadata. */
  function Drain(md: Meta, buf: string, parse: string -> ParsedItem, env: Env, found: bool): (d: Drained)
    requires env.rate > 0
    ensures d.ret == -1 || d.ret == 0 || d.ret == 1
    ensures |d.rest| <= |buf| && d.rest == buf[|buf| - |d.rest|..]
    decreases |buf|
  {
    match FrameLen(buf)
    case None => Drained(if found then 1 else 0, md, buf)
    case Some(n) =>
      var item := parse(buf[..n]);
      var rest := buf[n..];
      if ItemRet(item) < 0 then Drained(-1, ItemUpdate(md, item, env), rest)
      else Drain(ItemUpdate(md, item, env), rest, parse, env, found || ItemRet(item) > 0)
  }

  /** Some frame's item gives the result v. */
  predicate SomeItemGives(fs: seq<string>, parse: string -> ParsedItem, v: int)
  {
    exists k :: 0 <= k < |fs| && ItemRet(parse(fs[k])) == v
  }

  /** pipe_metadata_handle reports -1 exactly when some frame's item is in
      error; otherwise it consumes every complete frame and reports 1
      exactly when some item carried metadata, else 0. */
  lemma {:induction false} DrainOutcome(md: Meta, buf: string, parse: string -> ParsedItem, env: Env, found: bool)
    requires env.rate > 0
    ensures var d := Drain(md, buf, parse, env, found);
            (d.ret == -1 <==> SomeItemGives(Frames(buf), parse, -1)) &&
            (d.ret != -1 ==> d.rest == Rest(buf) && (d.ret == 0 || d.ret == 1) &&
                             (d.ret == 1 <==> found || SomeItemGives(Frames(buf), parse, 1)))
    decreases |buf|
  {
    match FrameLen(buf)
    case None =>
    case Some(n) =>
      var frame := buf[..n];
      var rest := buf[n..];
      var fs := Frames(buf);
      assert fs == [frame] + Frames(rest);
      var r := ItemRet(parse(frame));
      forall v
        ensures SomeItemGives(fs, parse, v) <==> r == v || SomeItemGives(Frames(rest), parse, v)
      {
        if SomeItemGives(Frames(rest), parse, v) {
          var k :| 0 <= k < |Frames(rest)| && ItemRet(parse(Frames(rest)[k])) == v;
          assert fs[k + 1] == Frames(rest)[k];
        }
        if SomeItemGives(fs, parse, v) && r != v {
          var k :| 0 <= k < |fs| && ItemRet(parse(fs[k])) == v;
          assert fs[k] == Frames(rest)[k - 1];
        }
        if r == v {
          assert fs[0] == frame;
        }
      }
      if r >= 0 {
        DrainOutcome(ItemUpdate(md, parse(frame), env), rest, parse, env, found || r > 0);
      }
  }

  /** pipe_metadata_handle: take frames from the buffer and handle them one
      by one until none is left or an item fails. */
  method MetadataHandle(m: InputMetadata, evbuf: MetadataBuffer, parse: string -> ParsedItem, env: Env)
    returns (ret: int)
    requires env.rate > 0
    modifies m, evbuf
    ensures Drained(ret, m.Value(), evbuf.data) == Drain(old(m.Value()), old(evbuf.data), parse, env, false)
  {
    var found := false;
    while true
      invariant Drain(old(m.Value()), old(evbuf.data), parse, env, false) ==
                Drain(m.Value(), evbuf.data, parse, env, found)
      decreases |evbuf.data|
    {
      var item := ExtractItem(evbuf);
      if item.None? {
        break;
      }
      ret := HandleItem(m, parse(item.value), env);
      if ret < 0 {
        return -1;
      }
      if ret > 0 {
        found := true;
      }
    }
    ret := if found then 1 else 0;
  }
}
