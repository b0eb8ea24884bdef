/** The smart-playlist driver: fetch or create the playlist record for a
    .smartpl file, run the query compiler over the file, keep its title and
    SQL query only when the compiler succeeded and produced both, and then
    update the stored record (when it has an id) or insert it.

    The compiler itself (an ANTLR lexer, parser and tree walker) is not part
    of this model: a Pipeline value says which of its objects could be
    created, how many errors the parser and the tree parser counted, and what
    title and query came back. The playlist store (fetch by path, add,
    update) is represented by its inputs and by the call the driver makes. */
module SmartPlaylist {
  import opened Common

  /** enum pl_type */
  datatype PlaylistType = PlSpecial | PlFolder | PlSmart | PlPlain

  /** The fields of struct playlist_info that the driver reads or writes. */
  datatype PlaylistRecord = PlaylistRecord(
    id: int,
    path: string,
    virtualPath: string,
    kind: PlaylistType,
    title: Option<string>,
    query: Option<string>)

  /** The in-memory struct playlist_info the driver fills in. */
  class PlaylistInfo {
    var id: int
    var path: string
    var virtualPath: string
    var kind: PlaylistType
    var title: Option<string>
    var query: Option<string>

    function Record(): PlaylistRecord
      reads this
    {
      PlaylistRecord(id, path, virtualPath, kind, title, query)
    }

    /** A copy of a record fetched from the store (db_pl_fetch_bypath). */
    constructor Load(r: PlaylistRecord)
      ensures Record() == r
    {
      id, path, virtualPath, kind, title, query := r.id, r.path, r.virtualPath, r.kind, r.title, r.query;
    }

    /** scan_smartpl's new record: zeroed, then path, virtual path and type. */
    constructor Create(file: string)
      ensures Record() == NewRecord(file)
    {
      // memset(pli, 0, ...)
      id, path, virtualPath, kind, title, query := 0, "", "", PlSpecial, None, None;
      path := file;
      virtualPath := VirtualPath(file);
      kind := PlSmart;
    }
  }

  /** "/file:" + file, formatted into a PATH_MAX buffer and cut at the last
      '.' found anywhere in it. */
  function VirtualPath(file: string): (r: string)
    ensures var s := FitPath("/file:" + file);
            ('.' !in s ==> r == s) &&
            ('.' in s ==> |r| < |s| && r == s[..|r|] && s[|r|] == '.' && '.' !in s[|r| + 1..])
  {
    var s := FitPath("/file:" + file);
    match LastIndexOf(s, '.')
    case None => s
    case Some(i) => s[..i]
  }

  /** The virtual path always keeps the "/file:" scheme, and for a path whose
      only '.' starts the extension it is the path without that extension. */
  lemma {:induction false} VirtualPathShape(file: string, stem: string, ext: string)
    requires file == stem + "." + ext && '.' !in stem && '.' !in ext
    requires |file| < PATH_MAX - 6
    ensures HasPrefix(VirtualPath(file), "/file:")
    ensures VirtualPath(file) == "/file:" + stem
  {
    var s := "/file:" + file;
    assert FitPath(s) == s;
    assert s == ("/file:" + stem) + "." + ext;
    assert s[|"/file:" + stem|] == '.';
    assert s[|"/file:" + stem| + 1..] == ext;
    assert s[..|"/file:" + stem|] == "/file:" + stem;
    assert '.' !in "/file:" + stem by {
      assert forall k :: 0 <= k < 6 ==> ("/file:" + stem)[k] != '.';
      assert forall k :: 6 <= k < |"/file:" + stem| ==> ("/file:" + stem)[k] == stem[k - 6];
    }
  }

  function NewRecord(file: string): PlaylistRecord
  {
    PlaylistRecord(0, file, VirtualPath(file), PlSmart, None, None)
  }

  /** What the compiler pipeline did on one file. */
  datatype Pipeline = Pipeline(
    inputOpened: bool,          // antlr3FileStreamNew
    lexerCreated: bool,         // SMARTPLLexerNew
    tokenStreamCreated: bool,   // antlr3CommonTokenStreamSourceNew
    parserCreated: bool,        // SMARTPLParserNew
    parserErrors: nat,          // errorCount of the parser after playlist()
    nodeStreamCreated: bool,    // antlr3CommonTreeNodeStreamNewTree
    converterCreated: bool,     // SMARTPL2SQLNew
    treeErrors: nat,            // errorCount of the tree parser after playlist()
    title: Option<string>,      // plreturn.title
    query: Option<string>)      // plreturn.query

  /** The objects smartpl_parse_file creates, in order of creation. */
  datatype Resource = Input | Lexer | TokenStream | Parser | NodeStream | Converter

  const Stages: seq<Resource> := [Input, Lexer, TokenStream, Parser, NodeStream, Converter]

  /** How many of the objects were created before the first failure, or all
      six when the pipeline ran through. The parser-error check comes after
      the parser and before the node stream. */
  function CreatedCount(p: Pipeline): (n: nat)
    ensures n <= 6
  {
    if !p.inputOpened then 0
    else if !p.lexerCreated then 1
    else if !p.tokenStreamCreated then 2
    else if !p.parserCreated then 3
    else if p.parserErrors > 0 || !p.nodeStreamCreated then 4
    else if !p.converterCreated then 5
    else 6
  }

  /** The compile result is taken only when every object was created, neither
      parser counted an error, and both title and query came back. */
  predicate Accepted(p: Pipeline)
  {
    CreatedCount(p) == 6 && p.treeErrors == 0 && p.title.Some? && p.query.Some?
  }

  function Reversed<T>(s: seq<T>): (r: seq<T>)
    ensures |r| == |s|
    ensures forall k :: 0 <= k < |s| ==> r[k] == s[|s| - 1 - k]
  {
    if s == [] then [] else Reversed(s[1..]) + [s[0]]
  }

  /** smartpl_parse_file. Returns the result code and the objects it freed,
      in the order it freed them. The title and query of pli change only on
      success, and then both together.

      Deliberate deviation: the parser is checked for NULL (the source tests
      the token stream a second time there; see ParserCheckAsWritten). */
  method ParseFile(p: Pipeline, pli: PlaylistInfo) returns (ret: int, released: seq<Resource>)
    modifies pli`title, pli`query
    ensures ret == 0 || ret == -1
    ensures ret == 0 <==> Accepted(p)
    ensures ret == 0 ==> pli.title == p.title && pli.query == p.query
    ensures ret != 0 ==> pli.title == old(pli.title) && pli.query == old(pli.query)
    ensures released == Reversed(Stages[..CreatedCount(p)])
  {
    var created := 0;
    ret := -1;
    if !p.inputOpened {
      return -1, [];
    }
    created := 1;
    if p.lexerCreated {
      created := 2;
      if p.tokenStreamCreated {
        created := 3;
        if p.parserCreated {
          created := 4;
          if p.parserErrors == 0 && p.nodeStreamCreated {
            created := 5;
            if p.converterCreated {
              created := 6;
              if p.treeErrors == 0 {
                if p.title.Some? && p.query.Some? {
                  pli.title := p.title;
                  pli.query := p.query;
                  ret := 0;
                }
              }
            }
          }
        }
      }
    }
    // The cleanup labels, entered at the one matching the failure point.
    released := [];
    if created >= 6 { released := released + [Converter]; }   // sql_error
    if created >= 5 { released := released + [NodeStream]; }  // sql_fail
    if created >= 4 { released := released + [Parser]; }      // psr_error
    if created >= 3 { released := released + [TokenStream]; } // psr_fail
    if created >= 2 { released := released + [Lexer]; }       // tkstream_fail
    released := released + [Input];                            // lxr_fail
    assert created == CreatedCount(p);
  }

  /** The guard after SMARTPLParserNew as written: it reports a failure when
      the token stream is NULL, whatever the parser is. */
  function ParserCheckAsWritten(tokenStreamCreated: bool, parserCreated: bool): (fails: bool)
  {
    !tokenStreamCreated
  }

  /** The guard as written never fires: it is reached only with a token
      stream, so a parser that could not be created is used anyway. */
  lemma ParserCheckMissesNullParser()
    ensures !ParserCheckAsWritten(true, false)
    ensures forall parserCreated :: !ParserCheckAsWritten(true, parserCreated)
  {
  }

  /** With the corrected guard, a parser that could not be created fails the
      parse, and no object past the token stream is touched. */
  lemma {:induction false} NullParserFails(p: Pipeline)
    requires p.inputOpened && p.lexerCreated && p.tokenStreamCreated && !p.parserCreated
    ensures !Accepted(p)
    ensures Reversed(Stages[..CreatedCount(p)]) == [TokenStream, Lexer, Input]
  {
    assert Stages[..3] == [Input, Lexer, TokenStream];
  }

  /** The call scan_smartpl makes to the playlist store. */
  datatype StoreCall = NoStore | Update(record: PlaylistRecord) | Add(record: PlaylistRecord)

  /** scan_smartpl: fetch or create, compile, then update or insert. */
  method ScanSmartpl(file: string, fetched: Option<PlaylistRecord>, p: Pipeline) returns (call: StoreCall)
    ensures var base := if fetched.Some? then fetched.value else NewRecord(file);
            (!Accepted(p) ==> call == NoStore) &&
            (Accepted(p) && base.id != 0 ==> call == Update(base.(title := p.title, query := p.query))) &&
            (Accepted(p) && base.id == 0 ==> call == Add(base.(title := p.title, query := p.query)))
  {
    var pli: PlaylistInfo;
    if fetched.None? {
      pli := new PlaylistInfo.Create(file);
    } else {
      pli := new PlaylistInfo.Load(fetched.value);
    }
    var ret, _ := ParseFile(p, pli);
    if ret < 0 {
      // free_pli: the record is dropped, nothing is stored
      return NoStore;
    }
    if pli.id != 0 {
      call := Update(pli.Record());
    } else {
      call := Add(pli.Record());
    }
  }
}
