/** The parts of Go's `path/filepath`, `os` and `fmt.Scanln` the generator relies on,
    modelled on values: slash-separated path helpers, a disk of files and directories,
    and a terminal with queued input lines. */
module Platform {
  import opened Results

  // ---------------------------------------------------------------------------
  // Path helpers (`filepath.Ext`, `filepath.Dir`, `filepath.Base`, on '/' paths)

  /** Index of the last '/' in `s`, if there is one. */
  function LastSlash(s: string): (r: Option<nat>)
    ensures r.Some? ==> r.value < |s| && s[r.value] == '/'
    ensures r.Some? ==> forall j | r.value < j < |s| :: s[j] != '/'
    ensures r.None? ==> forall j | 0 <= j < |s| :: s[j] != '/'
  {
    if s == [] then None
    else if s[|s| - 1] == '/' then Some(|s| - 1)
    else LastSlash(s[..|s| - 1])
  }

  /** `s` without its trailing separators. */
  function TrimSlashes(s: string): (r: string)
    ensures |r| <= |s| && r == s[..|r|]
    ensures r == [] || r[|r| - 1] != '/'
    ensures forall j | |r| <= j < |s| :: s[j] == '/'
  {
    if s != [] && s[|s| - 1] == '/' then TrimSlashes(s[..|s| - 1]) else s
  }

  /** `filepath.Ext`: the suffix of the last path element that starts at its last '.',
      or "" when that element holds no '.'. */
  function Ext(path: string): (ext: string)
    ensures |ext| <= |path| && ext == path[|path| - |ext|..]
    ensures ext != [] ==> ext[0] == '.'
    ensures forall j | 0 <= j < |ext| :: ext[j] != '/'
    ensures forall j | 1 <= j < |ext| :: ext[j] != '.'
    ensures ext == [] ==> forall i | 0 <= i < |path| && path[i] == '.' :: '/' in path[i + 1..]
  {
    if path == [] then ""
    else
      var c := path[|path| - 1];
      if c == '/' then ""
      else if c == '.' then "."
      else
        var e := Ext(path[..|path| - 1]);
        if e == "" then "" else e + [c]
  }

  /** `filepath.Dir`: everything before the last separator, without trailing
      separators; "." when there is no separator and "/" for a root-level path. */
  function Dir(path: string): (d: string)
    ensures d != ""
  {
    match LastSlash(path)
    case None => "."
    case Some(i) =>
      var d := TrimSlashes(path[..i]);
      if d == "" then "/" else d
  }

  /** What `Dir` returns: "." without a separator; otherwise the prefix before the last
      separator that drops exactly the separators in front of it, or "/" when only
      separators precede the last one. */
  lemma DirSpec(path: string)
    ensures LastSlash(path).None? ==> Dir(path) == "."
    ensures var d := Dir(path); LastSlash(path).Some? && d != "/" ==>
      |d| <= LastSlash(path).value && d == path[..|d|] && d[|d| - 1] != '/'
    ensures var d := Dir(path); LastSlash(path).Some? && d != "/" ==>
      forall j | |d| <= j < LastSlash(path).value :: path[j] == '/'
    ensures Dir(path) == "/" ==> LastSlash(path).Some? && forall j | 0 <= j < LastSlash(path).value :: path[j] == '/'
  {
  }

  /** The part of `t` after its last separator. */
  function LastElement(t: string): (e: string)
    ensures '/' !in e && |e| <= |t| && e == t[|t| - |e|..]
  {
    match LastSlash(t)
    case None => t
    case Some(i) => t[i + 1..]
  }

  /** `filepath.Base`: the last element of `path` after trailing separators are removed;
      "." for the empty path and "/" for a path of separators only. */
  function Base(path: string): (b: string)
    ensures b != ""
    ensures path == "" ==> b == "."
    ensures path != "" && TrimSlashes(path) == "" ==> b == "/"
    ensures path != [] && TrimSlashes(path) != [] ==> b == LastElement(TrimSlashes(path))
  {
    if path == "" then "."
    else
      var t := TrimSlashes(path);
      if t == "" then "/" else LastElement(t)
  }

  /** The directories `os.MkdirAll(d)` needs: every prefix of `d` that ends just
      before a separator, and `d` itself. */
  function Ancestors(d: string): set<string> {
    set i | 0 < i <= |d| && (i == |d| || d[i] == '/') :: d[..i]
  }

  /** The ancestors of `d` are exactly its non-empty prefixes that end at a separator
      or at the end of `d`; `d` is one of them. */
  lemma AncestorsSpec(d: string)
    ensures d != "" ==> d in Ancestors(d)
    ensures forall x | x in Ancestors(d) :: x != "" && |x| <= |d| && x == d[..|x|] && (|x| == |d| || d[|x|] == '/')
    ensures forall i | 0 < i <= |d| && (i == |d| || d[i] == '/') :: d[..i] in Ancestors(d)
  {
    assert d != "" ==> d[..|d|] == d;
  }

  /** The longest ancestor of `d` no longer than `n` that is a file. `os.MkdirAll(d)`
      looks at `d` and then at each parent in turn, and its error names the first that
      exists; below a file nothing exists, so that is this one. */
  function FileAncestor(d: string, files: set<string>, n: nat): Option<string>
    requires n <= |d|
    decreases n
  {
    if n == 0 then None
    else if (n == |d| || d[n] == '/') && d[..n] in files then Some(d[..n])
    else FileAncestor(d, files, n - 1)
  }

  /** `FileAncestor` finds a prefix of `d` that is an ancestor and a file, and no longer
      one up to `n` is a file; when it finds none, none up to `n` is. */
  lemma {:induction false} FileAncestorSpec(d: string, files: set<string>, n: nat)
    requires n <= |d|
    ensures var r := FileAncestor(d, files, n);
      && (r.Some? ==> r.value in files && 0 < |r.value| <= n && r.value == d[..|r.value|])
      && (r.Some? ==> |r.value| == |d| || d[|r.value|] == '/')
      && (r.Some? ==> forall i | |r.value| < i <= n && (i == |d| || d[i] == '/') :: d[..i] !in files)
      && (r.None? ==> forall i | 0 < i <= n && (i == |d| || d[i] == '/') :: d[..i] !in files)
    decreases n
  {
    if n > 0 && !((n == |d| || d[n] == '/') && d[..n] in files) {
      FileAncestorSpec(d, files, n - 1);
    }
  }

  lemma {:induction false} TrimSlashesAppend(prefix: string, s: string)
    requires TrimSlashes(s) != ""
    ensures TrimSlashes(prefix + s) == prefix + TrimSlashes(s)
    decreases |s|
  {
    var w := prefix + s;
    if s[|s| - 1] == '/' {
      assert w[..|w| - 1] == prefix + s[..|s| - 1];
      TrimSlashesAppend(prefix, s[..|s| - 1]);
    }
  }

  lemma {:induction false} LastSlashAppend(prefix: string, s: string)
    ensures LastSlash(s).Some? ==> LastSlash(prefix + s) == Some(|prefix| + LastSlash(s).value)
    ensures LastSlash(s).None? ==> LastSlash(prefix + s) == LastSlash(prefix)
    decreases |s|
  {
    if s != [] {
      var w := prefix + s;
      if s[|s| - 1] != '/' {
        assert w[..|w| - 1] == prefix + s[..|s| - 1];
        LastSlashAppend(prefix, s[..|s| - 1]);
      }
    } else {
      assert prefix + s == prefix;
    }
  }

  /** The last element does not change when a prefix ending in a separator is added. */
  lemma LastElementUnder(prefix: string, t: string)
    requires prefix != [] && prefix[|prefix| - 1] == '/'
    ensures LastElement(prefix + t) == LastElement(t)
  {
    LastSlashAppend(prefix, t);
    if LastSlash(t).None? {
      assert LastSlash(prefix) == Some(|prefix| - 1);
      assert (prefix + t)[|prefix|..] == t;
    } else {
      var i := LastSlash(t).value;
      assert (prefix + t)[|prefix| + i + 1..] == t[i + 1..];
    }
  }

  /** A template's name is the same whether it is taken from the input path or from
      that path under a directory: `Base(dir + "/" + x) == Base(x)` once `x` has a
      character other than '/'. */
  lemma BaseUnder(dir: string, x: string)
    requires TrimSlashes(x) != ""
    ensures Base(dir + "/" + x) == Base(x)
  {
    var prefix := dir + "/";
    assert dir + "/" + x == prefix + x;
    TrimSlashesAppend(prefix, x);
    LastElementUnder(prefix, TrimSlashes(x));
  }

  // ---------------------------------------------------------------------------
  // The disk

  /** The file system as a value: file contents by path, and the set of directories. */
  datatype Disk = Disk(files: map<string, string>, dirs: set<string>) {

    /** No path is both a file and a directory. */
    predicate Valid() {
      files.Keys !! dirs
    }

    /** `os.Stat(path)` succeeds. */
    predicate Exists(path: string) {
      path in files || path in dirs
    }

    /** `os.ReadFile(path)`. */
    function ReadFile(path: string): (r: Result<string>)
      ensures r.Ok? <==> path in files
      ensures r.Ok? ==> r.value == files[path]
      ensures r.Err? && path in dirs ==> r.error == PathError("read", path, IsDirectory)
      ensures r.Err? && path !in dirs ==> r.error == PathError("open", path, NoEntry)
    {
      if path in files then Ok(files[path])
      else if path in dirs then Err(PathError("read", path, IsDirectory))
      else Err(PathError("open", path, NoEntry))
    }

    /** `os.MkdirAll(d)`: fails when `d` or one of its ancestors is a file (no directory
        is created then); otherwise all of them become directories. */
    function MkdirAll(d: string): Result<Disk> {
      match FileAncestor(d, files.Keys, |d|)
      case Some(x) => Err(PathError("mkdir", x, NotDirectory))
      case None => Ok(Disk(files, dirs + Ancestors(d)))
    }

    /** What `MkdirAll` promises. The error names the longest ancestor that is a file. */
    lemma MkdirAllSpec(d: string)
      ensures var r := MkdirAll(d);
        && (r.Ok? <==> forall x | x in Ancestors(d) :: x !in files)
        && (r.Ok? ==> r.value.files == files)
        && (r.Ok? ==> dirs <= r.value.dirs && Ancestors(d) <= r.value.dirs)
        && (r.Ok? ==> forall x | x in r.value.dirs :: x in dirs || x in Ancestors(d))
        && (r.Ok? && Valid() ==> r.value.Valid())
        && (r.Err? ==> r.error.PathError? && var x := r.error.path;
          && r.error == PathError("mkdir", x, NotDirectory)
          && x in Ancestors(d) && x in files
          && forall y | y in Ancestors(d) && |y| > |x| :: y !in files)
    {
      AncestorsSpec(d);
      FileAncestorSpec(d, files.Keys, |d|);
    }

    /** `os.Create(path)`: fails on the empty path, when `path` is a directory, when
        its parent directory is missing, and when it ends in a separator (it then names
        a directory); otherwise the file exists and is empty. */
    function Create(path: string): Result<Disk> {
      if path == "" then Err(PathError("open", path, NoEntry))
      else if path in dirs then Err(PathError("open", path, IsDirectory))
      else if Dir(path) !in dirs then Err(PathError("open", path, NoEntry))
      else if path[|path| - 1] == '/' then Err(PathError("open", path, IsDirectory))
      else Ok(Disk(files[path := ""], dirs))
    }

    /** What `Create` promises. */
    lemma CreateSpec(path: string)
      ensures var r := Create(path);
        && (r.Ok? <==> path != "" && path[|path| - 1] != '/' && path !in dirs && Dir(path) in dirs)
        && (r.Ok? ==> path in r.value.files && r.value.files[path] == "")
        && (r.Ok? ==> r.value.dirs == dirs)
        && (r.Ok? ==> forall p | p in files && p != path :: p in r.value.files && r.value.files[p] == files[p])
        && (r.Ok? ==> r.value.files.Keys == files.Keys + {path})
        && (r.Ok? && Valid() ==> r.value.Valid())
        && (path == "" ==> r == Err(PathError("open", path, NoEntry)))
        && (path != "" && path in dirs ==> r == Err(PathError("open", path, IsDirectory)))
        && (path != "" && path !in dirs && Dir(path) !in dirs ==> r == Err(PathError("open", path, NoEntry)))
        && (path != "" && path !in dirs && Dir(path) in dirs && path[|path| - 1] == '/' ==>
          r == Err(PathError("open", path, IsDirectory)))
    {
    }

    /** Writing `text` to the (already created) file at `path`. */
    function Write(path: string, text: string): (r: Disk)
      ensures path in r.files && r.files[path] == text
      ensures r.dirs == dirs
      ensures forall p | p in files && p != path :: p in r.files && r.files[p] == files[p]
      ensures r.files.Keys == files.Keys + {path}
    {
      Disk(files[path := text], dirs)
    }
  }

  /** Once `os.MkdirAll(Dir(path))` has succeeded, `os.Create(path)` fails only when
      `path` is empty, ends in a separator or is itself a directory: every mapping
      creates its own parent chain. */
  lemma CreateAfterMkdirAll(disk: Disk, path: string)
    requires disk.MkdirAll(Dir(path)).Ok?
    ensures disk.MkdirAll(Dir(path)).value.Create(path).Ok? <==>
      path != "" && path[|path| - 1] != '/' && path !in disk.dirs && path !in Ancestors(Dir(path))
  {
    disk.MkdirAllSpec(Dir(path));
    disk.MkdirAll(Dir(path)).value.CreateSpec(path);
    AncestorsSpec(Dir(path));
  }

  /** The file-system state the program changes in place. */
  class FileSystem {
    var files: map<string, string>
    var dirs: set<string>

    function State(): Disk
      reads this
    {
      Disk(files, dirs)
    }

    constructor (disk: Disk)
      ensures State() == disk
    {
      files, dirs := disk.files, disk.dirs;
    }

    /** Whether `os.Stat(path)` returns no error. */
    method Stat(path: string) returns (found: bool)
      ensures found <==> path in files || path in dirs
    {
      found := path in files || path in dirs;
    }

    method MkdirAll(d: string) returns (err: Option<Error>)
      modifies this
      ensures match old(State()).MkdirAll(d)
        case Ok(next) => err == None && State() == next
        case Err(e) => err == Some(e) && State() == old(State())
    {
      match State().MkdirAll(d)
      case Ok(next) => files, dirs := next.files, next.dirs; err := None;
      case Err(e) => err := Some(e);
    }

    method Create(path: string) returns (err: Option<Error>)
      modifies this
      ensures match old(State()).Create(path)
        case Ok(next) => err == None && State() == next
        case Err(e) => err == Some(e) && State() == old(State())
    {
      match State().Create(path)
      case Ok(next) => files, dirs := next.files, next.dirs; err := None;
      case Err(e) => err := Some(e);
    }

    method Write(path: string, text: string)
      modifies this
      ensures State() == old(State()).Write(path, text)
    {
      files := files[path := text];
    }
  }

  // ---------------------------------------------------------------------------
  // The terminal

  /** Standard input as a queue of lines still to be read, and the prompts written
      to standard output so far. */
  datatype Tty = Tty(input: seq<string>, shown: seq<string>) {

    /** What `fmt.Scanln(&s)` leaves in `s`: the next line, or "" once input is exhausted. */
    function Answer(): string {
      if input == [] then "" else input[0]
    }

    /** The terminal after `prompt` is written and one line is read. */
    function After(prompt: string): (t: Tty)
      ensures t.shown == shown + [prompt]
      ensures input != [] ==> t.input == input[1..]
      ensures input == [] ==> t.input == []
    {
      Tty(if input == [] then [] else input[1..], shown + [prompt])
    }
  }

  /** The terminal the program reads from and writes prompts to. */
  class Console {
    var input: seq<string>
    var shown: seq<string>

    function State(): Tty
      reads this
    {
      Tty(input, shown)
    }

    constructor (tty: Tty)
      ensures State() == tty
    {
      input, shown := tty.input, tty.shown;
    }

    /** `fmt.Printf(prompt)` followed by `fmt.Scanln(&line)`. */
    method Scanln(prompt: string) returns (line: string)
      modifies this
      ensures line == old(State()).Answer()
      ensures State() == old(State()).After(prompt)
    {
      shown := shown + [prompt];
      if input == [] {
        line := "";
      } else {
        line := input[0];
        input := input[1..];
      }
    }
  }
}
