/**
 * Credential discovery from files, shared by gpt_api/utils.py:39-62 and
 * openai_wrapper/wrapper.py:90-114 (the two loops are the same code over two location
 * lists): three file formats and a location-major search over a location list and a fixed
 * file-name list.
 */
module KeyFiles {
  import opened Wrappers
  import opened PyStr

  /** The values `json.loads` produces. */
  datatype Json =
    | JNull
    | JBool(b: bool)
    | JNumber(n: real)
    | JString(s: string)
    | JArray(items: seq<Json>)
    | JObject(fields: map<string, Json>)

  /**
   * The directories `possible_key_locations` names: the home directory, the directory of the
   * module doing the search (`os.path.dirname(__file__)`, which differs between the `gpt_api`
   * and the `openai_wrapper` packages) and the working directory.
   */
  datatype Location = Home | GptApiDir | WrapperDir | WorkingDir

  /** `possible_key_locations` of gpt_api/utils.py, in search order. */
  const GptApiLocations: seq<Location> := [Home, GptApiDir, WorkingDir]

  /** `possible_key_locations` of openai_wrapper/wrapper.py, in search order. */
  const WrapperLocations: seq<Location> := [Home, WrapperDir, WorkingDir]

  /** `possible_filenames`, in search order. */
  const KeyFilenames: seq<string> := [".openai_api_key", "secrets.json", "secrets.txt"]

  /** The field name looked up in the JSON and `key:value` formats. */
  const KeyField: string := "openai_api_key"

  /** `os.path.join(location, filename)` */
  type Path = (Location, string)

  /**
   * The surroundings of the process: the environment, the files that exist with their text,
   * `json.loads` (`None` where it raises), whether GPT_API_DEV_MODE is set, and the lines the
   * user types at the key prompts, in order (running out of them is end of input).
   */
  datatype Host = Host(
    environ: map<string, string>,
    devMode: bool,
    files: map<Path, string>,
    decode: string -> Option<Json>,
    answers: seq<string>)

  /** `os.environ.get("OPENAI_API_KEY")` */
  function EnvKey(environ: map<string, string>): Option<string> {
    if "OPENAI_API_KEY" in environ then Some(environ["OPENAI_API_KEY"]) else None
  }

  /**
   * The verdict on one existing file: `Miss` lets the search go on to the next file name;
   * `Hit(k)` is the `break` after `api_key = k`, where `k` is `None` for a JSON `null`.
   */
  datatype Probe = Miss | Hit(key: Option<string>)

  /** `.openai_api_key`: taken when its stripped text is exactly one line. */
  function DotfileProbe(data: string): Probe {
    var t := Strip(data);
    if |SplitLines(t)| == 1 then Hit(Some(t)) else Miss
  }

  /** The dotfile yields its stripped text exactly when that text is one non-empty line. */
  lemma DotfileProbeIff(data: string, k: string)
    ensures DotfileProbe(data) == Hit(Some(k)) <==> k == Strip(data) && k != [] && NoLineBreak(k)
    ensures DotfileProbe(data) != Hit(None)
  {
    TrimmedOneLine(Strip(data));
  }

  /** A key written on one line, with any whitespace around it, is read back. */
  lemma DotfileRoundTrip(pre: string, k: string, post: string)
    requires AllSpace(pre) && AllSpace(post)
    requires k != [] && Trimmed(k) && NoLineBreak(k)
    ensures DotfileProbe(pre + k + post) == Hit(Some(k))
  {
    StripPadded(pre, k, post);
    DotfileProbeIff(pre + k + post, k);
  }

  /** Every line of a `secrets.txt` splits into a key and a value at its first `:`. */
  predicate AllHaveColon(lines: seq<string>) {
    forall i :: 0 <= i < |lines| ==> ':' in lines[i]
  }

  /** `dict([line.split(':', 1) for line in lines])`: later lines overwrite earlier ones. */
  function LinesDict(lines: seq<string>): map<string, string>
    requires AllHaveColon(lines)
    decreases |lines|
  {
    if lines == [] then map[]
    else
      var parts := SplitOnce(lines[|lines| - 1], ':');
      LinesDict(lines[..|lines| - 1])[parts[0] := parts[1]]
  }

  /** `secrets.txt`; a line without `:` makes `dict(...)` raise ValueError. */
  function TxtProbe(data: string): Result<Probe> {
    var lines := SplitLines(data);
    if !AllHaveColon(lines) then Err(ValueError)
    else
      var d := LinesDict(lines);
      if KeyField in d then Ok(Hit(Some(d[KeyField]))) else Ok(Miss)
  }

  /** The line `name:value` of a `key:value` file. */
  function Entry(name: string, value: string): string {
    name + ":" + value
  }

  lemma EntrySplits(name: string, value: string)
    requires ':' !in name
    ensures SplitOnce(Entry(name, value), ':') == [name, value]
  {
    var s := Entry(name, value);
    assert s == name + [':'] + value;
    FindAfter(name, ':', value);
    assert s[..|name|] == name;
    assert s[|name| + 1..] == value;
  }

  lemma EntryNoLineBreak(name: string, value: string)
    requires NoLineBreak(name) && NoLineBreak(value)
    ensures NoLineBreak(Entry(name, value))
  {
    var s := Entry(name, value);
    forall j | 0 <= j < |s| ensures !IsLineBreak(s[j]) {
      if j < |name| { assert s[j] == name[j]; }
      else if j > |name| { assert s[j] == value[j - |name| - 1]; }
    }
  }

  /** The last line naming a key decides its value in the dictionary, unstripped. */
  lemma {:induction false} LastEntryWins(before: seq<string>, name: string, value: string, after: seq<string>)
    requires ':' !in name
    requires AllHaveColon(before) && AllHaveColon(after)
    requires forall i :: 0 <= i < |after| ==> SplitOnce(after[i], ':')[0] != name
    ensures AllHaveColon(before + [Entry(name, value)] + after)
    ensures var d := LinesDict(before + [Entry(name, value)] + after); name in d && d[name] == value
    decreases |after|
  {
    var lines := before + [Entry(name, value)] + after;
    assert ':' in Entry(name, value) by { EntrySplits(name, value); }
    assert AllHaveColon(lines) by {
      forall i | 0 <= i < |lines| ensures ':' in lines[i] {
        if i < |before| { assert lines[i] == before[i]; }
        else if i > |before| { assert lines[i] == after[i - |before| - 1]; }
      }
    }
    if after == [] {
      assert lines[..|lines| - 1] == before;
      EntrySplits(name, value);
    } else {
      var shorter := after[..|after| - 1];
      assert lines[..|lines| - 1] == before + [Entry(name, value)] + shorter;
      assert lines[|lines| - 1] == after[|after| - 1];
      LastEntryWins(before, name, value, shorter);
    }
  }

  /**
   * A `secrets.txt` of `key:value` lines yields the value of its last `openai_api_key` line,
   * exactly as written after the first `:` (spaces and further colons included), whether its
   * lines end in `\n` or `\r\n` and whether or not the last one is terminated.
   */
  lemma TxtLastEntryWins(before: seq<string>, value: string, after: seq<string>, ends: seq<string>)
    requires AllHaveColon(before) && AllHaveColon(after)
    requires forall i :: 0 <= i < |before| ==> NoLineBreak(before[i])
    requires forall i :: 0 <= i < |after| ==> NoLineBreak(after[i]) && SplitOnce(after[i], ':')[0] != KeyField
    requires NoLineBreak(value)
    requires WellEnded(before + [Entry(KeyField, value)] + after, ends)
    ensures TxtProbe(Written(before + [Entry(KeyField, value)] + after, ends)) == Ok(Hit(Some(value)))
  {
    var lines := before + [Entry(KeyField, value)] + after;
    assert ':' !in KeyField && NoLineBreak(KeyField) by { KeyFieldPlain(); }
    EntryNoLineBreak(KeyField, value);
    LinesNoLineBreak(before, Entry(KeyField, value), after);
    SplitLinesWritten(lines, ends);
    LastEntryWins(before, KeyField, value, after);
  }

  lemma KeyFieldPlain()
    ensures ':' !in KeyField && NoLineBreak(KeyField)
  {
  }

  lemma LinesNoLineBreak(before: seq<string>, line: string, after: seq<string>)
    requires forall i :: 0 <= i < |before| ==> NoLineBreak(before[i])
    requires forall i :: 0 <= i < |after| ==> NoLineBreak(after[i])
    requires NoLineBreak(line)
    ensures forall i :: 0 <= i < |before + [line] + after| ==> NoLineBreak((before + [line] + after)[i])
  {
    var lines := before + [line] + after;
    forall i | 0 <= i < |lines| ensures NoLineBreak(lines[i]) {
      if i < |before| { assert lines[i] == before[i]; }
      else if i > |before| { assert lines[i] == after[i - |before| - 1]; }
    }
  }

  /**
   * One line without a `:` anywhere in `secrets.txt` makes the search raise ValueError, however
   * the lines end.
   */
  lemma TxtLineWithoutColonFails(lines: seq<string>, ends: seq<string>, i: nat)
    requires forall j :: 0 <= j < |lines| ==> NoLineBreak(lines[j])
    requires WellEnded(lines, ends)
    requires i < |lines| && ':' !in lines[i]
    ensures TxtProbe(Written(lines, ends)) == Err(ValueError)
  {
    SplitLinesWritten(lines, ends);
  }

  /**
   * `secrets.json`: `json.loads` then `'openai_api_key' in data` and `data['openai_api_key']`.
   * A decoding failure is a ValueError; `in` on a number, boolean or null and indexing a list or
   * string with a name are TypeErrors.
   */
  function JsonProbe(doc: Option<Json>): Result<Probe> {
    match doc
    case None => Err(ValueError)
    case Some(JObject(fields)) =>
      if KeyField !in fields then Ok(Miss)
      else (
        match fields[KeyField]
        case JString(s) => Ok(Hit(Some(s)))
        case JNull => Ok(Hit(None))
        case _ => Err(NonTextKey))
    case Some(JArray(items)) => if JString(KeyField) in items then Err(TypeError) else Ok(Miss)
    case Some(JString(s)) => if Contains(s, KeyField) then Err(TypeError) else Ok(Miss)
    case Some(_) => Err(TypeError)
  }

  /**
   * `secrets.json` yields its text field, is skipped when the object has no such field, and
   * fails when the text does not decode.
   */
  lemma JsonFieldRules(fields: map<string, Json>, k: string)
    ensures KeyField !in fields ==> JsonProbe(Some(JObject(fields))) == Ok(Miss)
    ensures KeyField in fields && fields[KeyField] == JString(k) ==> JsonProbe(Some(JObject(fields))) == Ok(Hit(Some(k)))
    ensures KeyField in fields && fields[KeyField] == JNull ==> JsonProbe(Some(JObject(fields))) == Ok(Hit(None))
    ensures JsonProbe(None) == Err(ValueError)
  {
  }

  /** The format is chosen by the file name: `.json`, then `.txt`, then a leading dot. */
  function ReadProbe(filename: string, data: string, decode: string -> Option<Json>): Result<Probe> {
    if EndsWith(filename, ".json") then JsonProbe(decode(data))
    else if EndsWith(filename, ".txt") then TxtProbe(data)
    else if StartsWith(filename, ".") then Ok(DotfileProbe(data))
    else Ok(Miss)
  }

  /** A path that does not exist is skipped. */
  function ProbeAt(files: map<Path, string>, decode: string -> Option<Json>, path: Path): Result<Probe> {
    if path in files then ReadProbe(path.1, files[path], decode) else Ok(Miss)
  }

  /** The inner loop: the first file name at `loc` that breaks, or raises. */
  function ScanNames(files: map<Path, string>, decode: string -> Option<Json>, loc: Location, names: seq<string>): Result<Probe>
    decreases |names|
  {
    if names == [] then Ok(Miss)
    else
      var probe := ProbeAt(files, decode, (loc, names[0]));
      if probe == Ok(Miss) then ScanNames(files, decode, loc, names[1..]) else probe
  }

  /** The outer loop: stops at the first location that yields a key (`None` keeps it going). */
  function ScanLocations(files: map<Path, string>, decode: string -> Option<Json>, locs: seq<Location>, names: seq<string>): Result<Option<string>>
    decreases |locs|
  {
    if locs == [] then Ok(None)
    else
      match ScanNames(files, decode, locs[0], names)
      case Err(e) => Err(e)
      case Ok(Hit(Some(k))) => Ok(Some(k))
      case Ok(_) => ScanLocations(files, decode, locs[1..], names)
  }

  /** The whole file search over `locs`; `Ok(None)` falls through to the interactive prompt. */
  function SearchResult(files: map<Path, string>, decode: string -> Option<Json>, locs: seq<Location>): Result<Option<string>> {
    ScanLocations(files, decode, locs, KeyFilenames)
  }

  /** The nested loop of both discoveries, breaking out as the source does. */
  method SearchKeyFiles(files: map<Path, string>, decode: string -> Option<Json>, locs: seq<Location>) returns (r: Result<Option<string>>)
    ensures r == SearchResult(files, decode, locs)
  {
    var key: Option<string> := None;
    var i := 0;
    while i < |locs|
      invariant 0 <= i <= |locs|
      invariant SearchResult(files, decode, locs) ==
        if key.Some? then Ok(key) else ScanLocations(files, decode, locs[i..], KeyFilenames)
    {
      if key.Some? {
        break;
      }
      var location := locs[i];
      var j := 0;
      while j < |KeyFilenames|
        invariant 0 <= j <= |KeyFilenames|
        invariant key == None
        invariant ScanNames(files, decode, location, KeyFilenames) == ScanNames(files, decode, location, KeyFilenames[j..])
      {
        var filename := KeyFilenames[j];
        if (location, filename) in files {
          var probe := ReadProbe(filename, files[(location, filename)], decode);
          if probe.Err? {
            assert ScanLocations(files, decode, locs[i..], KeyFilenames) == Err(probe.error);
            return Err(probe.error);
          }
          if probe.value.Hit? {
            key := probe.value.key;
            assert ScanNames(files, decode, location, KeyFilenames) == Ok(Hit(key));
            break;
          }
        }
        assert KeyFilenames[j..][1..] == KeyFilenames[j + 1..];
        j := j + 1;
      }
      assert locs[i..][1..] == locs[i + 1..];
      i := i + 1;
    }
    r := Ok(key);
  }

  /** Locations `a` and `b` hold the same files among `names`, with the same text. */
  predicate SameFiles(files: map<Path, string>, a: Location, b: Location, names: seq<string>) {
    forall j :: 0 <= j < |names| ==>
      ((a, names[j]) in files <==> (b, names[j]) in files) &&
      ((a, names[j]) in files ==> files[(a, names[j])] == files[(b, names[j])])
  }

  /** Two locations holding the same files are scanned alike. */
  lemma {:induction false} ScanNamesAlike(files: map<Path, string>, decode: string -> Option<Json>, a: Location, b: Location, names: seq<string>)
    requires SameFiles(files, a, b, names)
    ensures ScanNames(files, decode, a, names) == ScanNames(files, decode, b, names)
    decreases |names|
  {
    if names != [] {
      assert ProbeAt(files, decode, (a, names[0])) == ProbeAt(files, decode, (b, names[0])) by {
        assert 0 < |names|;
      }
      assert SameFiles(files, a, b, names[1..]) by {
        forall j | 0 <= j < |names[1..]|
          ensures ((a, names[1..][j]) in files <==> (b, names[1..][j]) in files) &&
            ((a, names[1..][j]) in files ==> files[(a, names[1..][j])] == files[(b, names[1..][j])])
        {
          assert names[1..][j] == names[j + 1];
        }
      }
      ScanNamesAlike(files, decode, a, b, names[1..]);
    }
  }

  /**
   * The two packages search different directories; when those hold the same key files, the
   * two searches give the same result.
   */
  lemma PackageLocationsAlike(files: map<Path, string>, decode: string -> Option<Json>)
    requires SameFiles(files, GptApiDir, WrapperDir, KeyFilenames)
    ensures SearchResult(files, decode, GptApiLocations) == SearchResult(files, decode, WrapperLocations)
  {
    ScanNamesAlike(files, decode, GptApiDir, WrapperDir, KeyFilenames);
    assert GptApiLocations[1..][1..] == WrapperLocations[1..][1..];
  }

  /** A key file in the `gpt_api` package directory only is found by one search and not the other. */
  lemma PackageLocationsDiffer(decode: string -> Option<Json>, text: string, k: string)
    requires decode(text) == Some(JObject(map[KeyField := JString(k)]))
    ensures var files := map[(GptApiDir, "secrets.json") := text];
      SearchResult(files, decode, GptApiLocations) == Ok(Some(k)) &&
      SearchResult(files, decode, WrapperLocations) == Ok(None)
  {
    var files := map[(GptApiDir, "secrets.json") := text];
    assert EndsWith("secrets.json", ".json");
    assert KeyFilenames[1..][0] == "secrets.json";
    assert ScanNames(files, decode, GptApiDir, KeyFilenames) == Ok(Hit(Some(k)));
  }

  /** The candidate paths in search order: every file name of a location before the next location. */
  function Candidates(locs: seq<Location>, names: seq<string>): (ps: seq<Path>)
    ensures |ps| == |locs| * |names|
    decreases |locs|
  {
    if locs == [] then [] else Row(locs[0], names) + Candidates(locs[1..], names)
  }

  function Row(loc: Location, names: seq<string>): (ps: seq<Path>)
    ensures |ps| == |names|
    ensures forall j :: 0 <= j < |names| ==> ps[j] == (loc, names[j])
  {
    seq(|names|, j requires 0 <= j < |names| => (loc, names[j]))
  }

  lemma {:induction false} ScanNamesFirst(files: map<Path, string>, decode: string -> Option<Json>, loc: Location, names: seq<string>, p: nat)
    requires p <= |names|
    requires forall q :: 0 <= q < p ==> ProbeAt(files, decode, (loc, names[q])) == Ok(Miss)
    ensures p == |names| ==> ScanNames(files, decode, loc, names) == Ok(Miss)
    ensures p < |names| ==>
      ScanNames(files, decode, loc, names) ==
        if ProbeAt(files, decode, (loc, names[p])) == Ok(Miss) then ScanNames(files, decode, loc, names[p + 1..])
        else ProbeAt(files, decode, (loc, names[p]))
    decreases p
  {
    if p > 0 {
      ScanNamesFirst(files, decode, loc, names[1..], p - 1);
      assert names[1..][p - 1..] == names[p..];
      if p < |names| {
        assert names[1..][p - 1 + 1..] == names[p + 1..];
      }
    }
  }

  /**
   * Location-major, first match wins: when every candidate before position `p` is missing or
   * yields nothing, the candidate at `p` decides the search if it yields a key or raises, and
   * no later candidate is read.
   */
  lemma {:induction false} FirstDecisiveCandidateWins(files: map<Path, string>, decode: string -> Option<Json>, locs: seq<Location>, names: seq<string>, p: nat, k: string)
    requires p < |Candidates(locs, names)|
    requires forall q :: 0 <= q < p ==> ProbeAt(files, decode, Candidates(locs, names)[q]) == Ok(Miss)
    ensures ProbeAt(files, decode, Candidates(locs, names)[p]) == Ok(Hit(Some(k))) ==> ScanLocations(files, decode, locs, names) == Ok(Some(k))
    ensures ProbeAt(files, decode, Candidates(locs, names)[p]).Err? ==>
      ScanLocations(files, decode, locs, names) == Err(ProbeAt(files, decode, Candidates(locs, names)[p]).error)
    decreases |locs|
  {
    var row := Row(locs[0], names);
    var all := Candidates(locs, names);
    assert all == row + Candidates(locs[1..], names);
    if p < |names| {
      forall q | 0 <= q < p ensures ProbeAt(files, decode, (locs[0], names[q])) == Ok(Miss) {
        assert all[q] == (locs[0], names[q]);
      }
      assert all[p] == (locs[0], names[p]);
      ScanNamesFirst(files, decode, locs[0], names, p);
    } else {
      forall q | 0 <= q < |names| ensures ProbeAt(files, decode, (locs[0], names[q])) == Ok(Miss) {
        assert all[q] == (locs[0], names[q]);
      }
      ScanNamesFirst(files, decode, locs[0], names, |names|);
      var rest := Candidates(locs[1..], names);
      forall q | 0 <= q < p - |names| ensures ProbeAt(files, decode, rest[q]) == Ok(Miss) {
        assert rest[q] == all[q + |names|];
      }
      assert rest[p - |names|] == all[p];
      FirstDecisiveCandidateWins(files, decode, locs[1..], names, p - |names|, k);
    }
  }

  /** When no candidate yields anything, the search falls through with no key. */
  lemma {:induction false} NoCandidateYields(files: map<Path, string>, decode: string -> Option<Json>, locs: seq<Location>, names: seq<string>)
    requires forall q :: 0 <= q < |Candidates(locs, names)| ==> ProbeAt(files, decode, Candidates(locs, names)[q]) == Ok(Miss)
    ensures ScanLocations(files, decode, locs, names) == Ok(None)
    decreases |locs|
  {
    if locs != [] {
      var all := Candidates(locs, names);
      assert all == Row(locs[0], names) + Candidates(locs[1..], names);
      forall q | 0 <= q < |names| ensures ProbeAt(files, decode, (locs[0], names[q])) == Ok(Miss) {
        assert all[q] == (locs[0], names[q]);
      }
      ScanNamesFirst(files, decode, locs[0], names, |names|);
      var rest := Candidates(locs[1..], names);
      forall q | 0 <= q < |rest| ensures ProbeAt(files, decode, rest[q]) == Ok(Miss) {
        assert rest[q] == all[q + |names|];
      }
      NoCandidateYields(files, decode, locs[1..], names);
    }
  }

  /**
   * A JSON `null` key makes the code break out of its location with no key: the later files of
   * that location are not read and the search goes on at the next location.
   */
  lemma NullKeyMovesToNextLocation(files: map<Path, string>, decode: string -> Option<Json>, locs: seq<Location>, names: seq<string>)
    requires locs != [] && ScanNames(files, decode, locs[0], names) == Ok(Hit(None))
    ensures ScanLocations(files, decode, locs, names) == ScanLocations(files, decode, locs[1..], names)
  {
  }
}
