/** The small helpers of lttng_ivc/utils/utils.py: counting the lines of a
    file, bounded polling for a path, creating an empty file, drawing
    distinct free ports, scanning a file for any of several strings and
    searching a directory walk for the last matching name. */
module Utils {
  import opened Base

  datatype Error =
    | Timeout              // "File still does not exists. Timeout expired"
    | PathExists(path: string)
    | NegativeCount        // the `assert(number >= 0)` of find_multiple_free_port
    | PortsExhausted       // the finite stream of offered ports ran out

  /** Number of one-second polls wait_for_file makes before it gives up. */
  const WaitTimeout := 60

  // ---------------------------------------------------------------------
  // Lines of a text file

  /** Length of the first line of `s`, the '\n' that ends it included. */
  function FirstLineLength(s: string): (n: nat)
    ensures n <= |s|
    ensures s != [] ==> 0 < n
    ensures forall i :: 0 <= i < n - 1 ==> s[i] != '\n'
    ensures 0 < n < |s| ==> s[n - 1] == '\n'
  {
    if s == [] then 0 else if s[0] == '\n' then 1 else 1 + FirstLineLength(s[1..])
  }

  /** Python's universal newlines, as a file opened in text mode is read:
      "\r\n" and a lone '\r' both become '\n'. */
  function Newlines(raw: string): (t: string)
    ensures '\r' !in t
    ensures |t| <= |raw|
    decreases |raw|
  {
    if raw == [] then []
    else if raw[0] == '\r' then
      if 1 < |raw| && raw[1] == '\n' then "\n" + Newlines(raw[2..]) else "\n" + Newlines(raw[1..])
    else [raw[0]] + Newlines(raw[1..])
  }

  /** A text without '\r' is read as it is. */
  lemma {:induction false} NewlinesKeep(raw: string)
    requires '\r' !in raw
    ensures Newlines(raw) == raw
    decreases |raw|
  {
    if raw != [] {
      assert raw[0] != '\r';
      assert forall i :: 0 <= i < |raw[1..]| ==> raw[1..][i] == raw[i + 1];
      NewlinesKeep(raw[1..]);
      assert [raw[0]] + raw[1..] == raw;
    }
  }

  /** A translated text reads the same a second time. */
  lemma {:induction false} NewlinesIdempotent(raw: string)
    ensures Newlines(Newlines(raw)) == Newlines(raw)
  {
    NewlinesKeep(Newlines(raw));
  }

  /** The lines of a translated text: each one ends just after its '\n',
      and a last line without '\n' is a line too. */
  function SplitLines(s: string): seq<string>
    decreases |s|
  {
    if s == [] then [] else
    var n := FirstLineLength(s);
    [s[..n]] + SplitLines(s[n..])
  }

  /** The lines a Python text file yields when iterated. */
  function Lines(raw: string): seq<string>
  {
    SplitLines(Newlines(raw))
  }

  function Concat(ls: seq<string>): string
  {
    if ls == [] then "" else ls[0] + Concat(ls[1..])
  }

  lemma {:induction false} SplitLinesConcat(s: string)
    ensures Concat(SplitLines(s)) == s
    decreases |s|
  {
    if s != [] {
      var n := FirstLineLength(s);
      SplitLinesConcat(s[n..]);
      assert SplitLines(s)[1..] == SplitLines(s[n..]);
      assert s[..n] + s[n..] == s;
    }
  }

  /** Iterating a file loses nothing but the translation of its line ends:
      its lines put back together are its text as read. */
  lemma LinesConcat(raw: string)
    ensures Concat(Lines(raw)) == Newlines(raw)
    ensures '\r' !in raw ==> Concat(Lines(raw)) == raw
  {
    SplitLinesConcat(Newlines(raw));
    if '\r' !in raw {
      NewlinesKeep(raw);
    }
  }

  lemma {:induction false} SplitLinesShape(s: string)
    ensures forall k :: 0 <= k < |SplitLines(s)| ==> SplitLines(s)[k] != ""
    ensures forall k, i :: 0 <= k < |SplitLines(s)| && 0 <= i < |SplitLines(s)[k]| - 1 ==> SplitLines(s)[k][i] != '\n'
    ensures forall k :: 0 <= k < |SplitLines(s)| - 1 ==> SplitLines(s)[k][|SplitLines(s)[k]| - 1] == '\n'
    decreases |s|
  {
    if s != [] {
      var n := FirstLineLength(s);
      SplitLinesShape(s[n..]);
      var ls := SplitLines(s);
      assert ls[1..] == SplitLines(s[n..]);
      forall k | 1 <= k < |ls| ensures ls[k] == SplitLines(s[n..])[k - 1] { }
      if 1 < |ls| {
        assert s[n..] != [];
        assert ls[0][|ls[0]| - 1] == s[n - 1];
      }
    }
  }

  /** Every line is nonempty, holds '\n' only as its last character, and every
      line but the last ends with '\n'. */
  lemma LinesShape(raw: string)
    ensures forall k :: 0 <= k < |Lines(raw)| ==> Lines(raw)[k] != ""
    ensures forall k, i :: 0 <= k < |Lines(raw)| && 0 <= i < |Lines(raw)[k]| - 1 ==> Lines(raw)[k][i] != '\n'
    ensures forall k :: 0 <= k < |Lines(raw)| - 1 ==> Lines(raw)[k][|Lines(raw)[k]| - 1] == '\n'
  {
    SplitLinesShape(Newlines(raw));
  }

  /** A lone '\r' and "\r\n" end a line as '\n' does. */
  lemma CarriageReturnLines()
    ensures Lines("a\rb") == ["a\n", "b"]
    ensures Lines("a\r\nb") == ["a\n", "b"]
  {
    assert Newlines("a\rb") == "a\nb" by {
      assert Newlines("b") == "b";
      assert Newlines("\rb") == "\n" + Newlines("b");
    }
    assert Newlines("a\r\nb") == "a\nb" by {
      assert Newlines("b") == "b";
      assert "a\r\nb"[1..] == "\r\nb";
      assert "\r\nb"[2..] == "b";
    }
    var t := "a\nb";
    assert FirstLineLength(t) == 2 by {
      assert t[1..] == "\nb";
      assert FirstLineLength(t[1..]) == 1;
    }
    assert t[..2] == "a\n" && t[2..] == "b";
    assert FirstLineLength("b") == 1 by {
      assert "b"[1..] == [];
    }
    assert SplitLines("b") == ["b"] by {
      assert "b"[..1] == "b" && "b"[1..] == [];
    }
  }

  /** line_count: the number of lines of the file's text. */
  method LineCount(text: string) returns (count: nat)
    ensures count == |Lines(text)|
  {
    count := 0;
    var lines := Lines(text);
    for k := 0 to |lines|
      invariant count == k
    {
      count := count + 1;
    }
  }

  // ---------------------------------------------------------------------
  // Polling and file creation

  /** wait_for_file: `present(k)` says whether the path exists at the k-th
      check. The path is checked up to 61 times, for k from 0 to 60, and
      every check that fails is followed by a one-second sleep, so the
      last sleep comes right before the timeout is raised. */
  method WaitForFile(present: nat -> bool) returns (r: Result<nat, Error>)
    ensures r.Ok? <==> exists k :: 0 <= k <= WaitTimeout && present(k)
    ensures r.Ok? ==> r.value <= WaitTimeout && present(r.value)
    ensures r.Ok? ==> forall k :: 0 <= k < r.value ==> !present(k)
    ensures r.Err? ==> r.error == Timeout
  {
    var i := 0;
    while !present(i)
      invariant 0 <= i <= WaitTimeout
      invariant forall k :: 0 <= k < i ==> !present(k)
      decreases WaitTimeout - i
    {
      i := i + 1;
      if i > WaitTimeout {
        return Err(Timeout);
      }
    }
    return Ok(i);
  }

  /** A file system as the text of every existing path. */
  type Files = map<string, string>

  /** create_empty_file: fails when the path exists, otherwise adds it empty. */
  function CreateEmptyFile(fs: Files, path: string): (r: Result<Files, Error>)
    ensures r.Err? <==> path in fs
    ensures r.Err? ==> r.error == PathExists(path)
    ensures r.Ok? ==> r.value.Keys == fs.Keys + {path}
    ensures r.Ok? ==> r.value[path] == "" && forall p :: p in fs ==> r.value[p] == fs[p]
  {
    if path in fs then Err(PathExists(path)) else Ok(fs[path := ""])
  }

  /** Creating the same file twice fails the second time, and the created
      file has no lines. */
  lemma CreateEmptyFileOnce(fs: Files, path: string)
    requires CreateEmptyFile(fs, path).Ok?
    ensures CreateEmptyFile(CreateEmptyFile(fs, path).value, path).Err?
    ensures Lines(CreateEmptyFile(fs, path).value[path]) == []
  {
  }

  // ---------------------------------------------------------------------
  // Free ports

  /** find_multiple_free_port: asks for ports one at a time from `offers`
      (what successive find_free_port calls return), skipping those already
      taken, until `number` distinct ones are held. */
  method FindMultipleFreePort(number: int, offers: seq<nat>) returns (r: Result<seq<nat>, Error>)
    ensures r == Err(NegativeCount) <==> number < 0
    ensures 0 <= number ==> (r.Ok? <==> number <= |Dedup(offers)|)
    ensures 0 <= number && r.Err? ==> r.error == PortsExhausted
    ensures r.Ok? ==> r.value == Dedup(offers)[..number]
    ensures r.Ok? ==> |r.value| == number && Distinct(r.value)
    ensures r.Ok? ==> forall p :: p in r.value ==> p in offers
  {
    if number < 0 {
      return Err(NegativeCount);
    }
    var ports: seq<nat> := [];
    var next := 0;
    while |ports| != number
      invariant 0 <= next <= |offers|
      invariant ports == Dedup(offers[..next])
      invariant |ports| <= number
      decreases |offers| - next
    {
      if next == |offers| {
        assert offers[..next] == offers;
        return Err(PortsExhausted);
      }
      var port := offers[next];
      assert offers[..next + 1][..next] == offers[..next];
      next := next + 1;
      if port in ports {
        continue;
      }
      ports := ports + [port];
    }
    DedupPrefix(offers, next, |offers|);
    assert offers[..|offers|] == offers;
    DedupMeaning(offers);
    DedupMeaning(offers[..next]);
    forall p | p in ports ensures p in offers {
      assert p in offers[..next];
    }
    return Ok(ports);
  }

  // ---------------------------------------------------------------------
  // Scanning a file for strings

  /** Some line of `lines` contains some element of `needles`. */
  predicate Mentions(lines: seq<string>, needles: seq<string>)
  {
    exists k, j :: 0 <= k < |lines| && 0 <= j < |needles| && IsInfix(needles[j], lines[k])
  }

  /** file_contains: true at the first line containing any of `needles`;
      the source's None is false here. */
  method FileContains(text: string, needles: seq<string>) returns (found: bool)
    ensures found <==> Mentions(Lines(text), needles)
  {
    var lines := Lines(text);
    for k := 0 to |lines|
      invariant forall k', j :: 0 <= k' < k && 0 <= j < |needles| ==> !IsInfix(needles[j], lines[k'])
    {
      for j := 0 to |needles|
        invariant forall j' :: 0 <= j' < j ==> !IsInfix(needles[j'], lines[k])
      {
        if IsInfix(needles[j], lines[k]) {
          return true;
        }
      }
    }
    return false;
  }

  /** What iterating over a plain string yields: its characters, each a string. */
  function Chars(s: string): (r: seq<string>)
    ensures |r| == |s| && forall i :: 0 <= i < |s| ==> r[i] == [s[i]]
  {
    if s == [] then [] else [[s[0]]] + Chars(s[1..])
  }

  /** A string passed where a collection of strings is expected matches any
      line that shares one character with it. */
  lemma MentionsChars(lines: seq<string>, cue: string, k: nat, i: nat)
    requires k < |lines| && i < |cue|
    requires cue[i] in lines[k]
    ensures Mentions(lines, Chars(cue))
  {
    var p :| 0 <= p < |lines[k]| && lines[k][p] == cue[i];
    assert InfixAt(Chars(cue)[i], lines[k], p);
  }

  /** A one-element collection matches exactly the lines holding that string. */
  lemma MentionsSingle(lines: seq<string>, cue: string)
    ensures Mentions(lines, [cue]) <==> exists k :: 0 <= k < |lines| && IsInfix(cue, lines[k])
  {
    if exists k :: 0 <= k < |lines| && IsInfix(cue, lines[k]) {
      var k :| 0 <= k < |lines| && IsInfix(cue, lines[k]);
      assert [cue][0] == cue;
    }
  }

  // ---------------------------------------------------------------------
  // Directory walks

  /** One step of os.walk: a directory, its sub-directories and its files. */
  datatype WalkEntry = WalkEntry(base: string, dirs: seq<string>, files: seq<string>)

  /** find_dir looks at directory names, find_file at file names. */
  datatype Listing = Dirs | Files

  function Names(e: WalkEntry, listing: Listing): seq<string>
  {
    match listing
    case Dirs => e.dirs
    case Files => e.files
  }

  /** The j-th name of the i-th walk step ends with `name`. */
  predicate IsMatch(walk: seq<WalkEntry>, listing: Listing, name: string, i: int, j: int)
  {
    0 <= i < |walk| && 0 <= j < |Names(walk[i], listing)| && EndsWith(Names(walk[i], listing)[j], name)
  }

  /** The walk visits (i, j) no later than (i', j'). */
  predicate VisitedBy(i: int, j: int, i': int, j': int)
  {
    i < i' || (i == i' && j <= j')
  }

  /** Position of the last name of `names` ending with `name`, or -1. */
  function LastNameIndex(names: seq<string>, name: string): (k: int)
    ensures -1 <= k < |names|
    ensures 0 <= k ==> EndsWith(names[k], name)
    ensures forall j :: k < j < |names| ==> !EndsWith(names[j], name)
  {
    if names == [] then -1
    else if EndsWith(names[|names| - 1], name) then |names| - 1
    else
      assert forall j :: 0 <= j < |names| - 1 ==> names[..|names| - 1][j] == names[j];
      LastNameIndex(names[..|names| - 1], name)
  }

  /** Walk position (step, name) of the last visited match, or (-1, -1). */
  function LastMatchPosition(walk: seq<WalkEntry>, listing: Listing, name: string): (pos: (int, int))
    ensures pos.0 < 0 <==> forall i, j :: !IsMatch(walk, listing, name, i, j)
    ensures 0 <= pos.0 ==> IsMatch(walk, listing, name, pos.0, pos.1)
    ensures 0 <= pos.0 ==> forall i, j :: IsMatch(walk, listing, name, i, j) ==> VisitedBy(i, j, pos.0, pos.1)
  {
    if walk == [] then (-1, -1) else
    var n := |walk| - 1;
    var k := LastNameIndex(Names(walk[n], listing), name);
    if 0 <= k then
      assert IsMatch(walk, listing, name, n, k);
      (n, k)
    else
      assert forall i, j :: IsMatch(walk[..n], listing, name, i, j) <==> i < n && IsMatch(walk, listing, name, i, j);
      LastMatchPosition(walk[..n], listing, name)
  }

  /** What find_dir and find_file answer: the joined path at the last match. */
  function LastMatch(walk: seq<WalkEntry>, listing: Listing, name: string): Option<string>
  {
    var pos := LastMatchPosition(walk, listing, name);
    if pos.0 < 0 then None else Some(PathJoin(walk[pos.0].base, Names(walk[pos.0], listing)[pos.1]))
  }

  /** LastMatch of one more walk step: a match there wins over earlier ones. */
  lemma LastMatchStep(walk: seq<WalkEntry>, listing: Listing, name: string, i: nat)
    requires i < |walk|
    ensures var k := LastNameIndex(Names(walk[i], listing), name);
      LastMatch(walk[..i + 1], listing, name)
        == if 0 <= k then Some(PathJoin(walk[i].base, Names(walk[i], listing)[k])) else LastMatch(walk[..i], listing, name)
  {
    assert walk[..i + 1][..i] == walk[..i];
    assert walk[..i + 1][i] == walk[i];
  }

  /** LastNameIndex of one more name. */
  lemma LastNameStep(names: seq<string>, name: string, j: nat)
    requires j < |names|
    ensures LastNameIndex(names[..j + 1], name)
      == if EndsWith(names[j], name) then j else LastNameIndex(names[..j], name)
  {
    assert names[..j + 1][..j] == names[..j];
  }

  /** find_dir and find_file: every visited name ending with `name`
      overwrites the answer, so the last one wins. */
  method FindLast(walk: seq<WalkEntry>, listing: Listing, name: string) returns (r: Option<string>)
    ensures r == LastMatch(walk, listing, name)
  {
    r := None;
    for i := 0 to |walk|
      invariant r == LastMatch(walk[..i], listing, name)
    {
      var base := walk[i].base;
      var names := Names(walk[i], listing);
      ghost var before := r;
      for j := 0 to |names|
        invariant var k := LastNameIndex(names[..j], name);
                  r == if 0 <= k then Some(PathJoin(base, names[k])) else before
      {
        LastNameStep(names, name, j);
        if EndsWith(names[j], name) {
          r := Some(PathJoin(base, names[j]));
        }
      }
      assert names[..|names|] == names;
      LastMatchStep(walk, listing, name, i);
    }
    assert walk[..|walk|] == walk;
  }
}
