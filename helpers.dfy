/**
 * The global helper functions: the path joins rooted at the application
 * directory, and env(), which scans the root `.env` file line by line.
 */
module Helpers {
  import opened Results
  import opened PhpValues

  /** DIRECTORY_SEPARATOR (the model assumes a POSIX system). */
  const Sep: char := '/'

  /** root_path($path): the application root, with `$path` appended after a separator. */
  function RootPath(base: string, path: Option<string>): (r: string)
    ensures path.None? ==> r == base
    ensures path.Some? ==>
              |r| == |base| + 1 + |path.value| && r[..|base|] == base
              && r[|base|] == Sep && r[|base| + 1..] == path.value
  {
    if path.None? then base else base + [Sep] + path.value
  }

  /** config_path($path): the same join below root_path('config'), i.e. root_path("config/$path"). */
  function ConfigPath(base: string, path: Option<string>): (r: string)
    ensures path.None? ==> r == RootPath(base, Some("config"))
    ensures path.Some? ==> r == RootPath(base, Some("config" + [Sep] + path.value))
  {
    var dir := RootPath(base, Some("config"));
    if path.None? then dir
    else
      assert dir + [Sep] + path.value == base + [Sep] + ("config" + [Sep] + path.value);
      dir + [Sep] + path.value
  }

  /** storage_path($path): the same join below root_path('storage'), i.e. root_path("storage/$path"). */
  function StoragePath(base: string, path: Option<string>): (r: string)
    ensures path.None? ==> r == RootPath(base, Some("storage"))
    ensures path.Some? ==> r == RootPath(base, Some("storage" + [Sep] + path.value))
  {
    var dir := RootPath(base, Some("storage"));
    if path.None? then dir
    else
      assert dir + [Sep] + path.value == base + [Sep] + ("storage" + [Sep] + path.value);
      dir + [Sep] + path.value
  }

  /** The characters PHP's trim() strips by default. */
  predicate IsBlank(c: char) {
    c == ' ' || c == '\t' || c == '\n' || c == '\r' || c == '\0' || c == '\U{000B}'
  }

  function TrimLeft(s: string): (r: string)
    ensures |r| <= |s| && r == s[|s| - |r|..]
    ensures r == [] || !IsBlank(r[0])
    ensures forall i :: 0 <= i < |s| - |r| ==> IsBlank(s[i])
  {
    if s != [] && IsBlank(s[0]) then TrimLeft(s[1..]) else s
  }

  function TrimRight(s: string): (r: string)
    ensures |r| <= |s| && r == s[..|r|]
    ensures r == [] || !IsBlank(r[|r| - 1])
    ensures forall i :: |r| <= i < |s| ==> IsBlank(s[i])
  {
    if s != [] && IsBlank(s[|s| - 1]) then TrimRight(s[..|s| - 1]) else s
  }

  /** trim($s). */
  function Trim(s: string): string {
    TrimRight(TrimLeft(s))
  }

  /** `strpos(trim($line), '#') === 0`: the line is a comment. */
  predicate IsComment(line: string) {
    var t := Trim(line);
    |t| > 0 && t[0] == '#'
  }

  /**
   * `[$name, $value] = explode('=', $line, 2)` followed by trim() of both:
   * the line splits at its first '=' only. Without '=' the value half is
   * missing, i.e. null, which trims to the empty string.
   */
  function ParseLine(line: string): (string, string) {
    match IndexOf(line, '=')
    case None => (Trim(line), "")
    case Some(i) => (Trim(line[..i]), Trim(line[i + 1..]))
  }

  /** A line that env() reads as a definition of `key`. */
  predicate Defines(line: string, key: string) {
    !IsComment(line) && ParseLine(line).0 == key
  }

  /** What the scan of the `.env` lines returns for `key`. */
  function EnvScan(lines: seq<string>, key: string, default: string): string {
    if lines == [] then default
    else if IsComment(lines[0]) then EnvScan(lines[1..], key, default)
    else if ParseLine(lines[0]).0 == key then ParseLine(lines[0]).1
    else EnvScan(lines[1..], key, default)
  }

  /** env($key, $default): the default when the `.env` file is missing or unreadable. */
  function EnvValue(dotenv: Option<seq<string>>, key: string, default: string): string {
    if dotenv.None? then default else EnvScan(dotenv.value, key, default)
  }

  /** env($key, $default), scanning the lines as the helper does. */
  method Env(dotenv: Option<seq<string>>, key: string, default: string) returns (r: string)
    ensures r == EnvValue(dotenv, key, default)
    ensures dotenv.None? ==> r == default
  {
    if dotenv.None? {
      return default;
    }
    var lines := dotenv.value;
    var i := 0;
    while i < |lines|
      invariant 0 <= i <= |lines|
      invariant EnvScan(lines[i..], key, default) == EnvScan(lines, key, default)
    {
      var line := lines[i];
      assert lines[i..][0] == line && lines[i..][1..] == lines[i + 1..];
      if IsComment(line) {
        i := i + 1;
        continue;
      }
      var (name, value) := ParseLine(line);
      if name == key {
        return value;
      }
      i := i + 1;
    }
    return default;
  }

  /** The first line defining `key` decides the value; later duplicates are never read. */
  lemma {:induction false} EnvFirstDefinitionWins(lines: seq<string>, key: string, default: string, i: nat)
    requires i < |lines| && Defines(lines[i], key)
    requires forall j :: 0 <= j < i ==> !Defines(lines[j], key)
    ensures EnvScan(lines, key, default) == ParseLine(lines[i]).1
  {
    if i > 0 {
      assert !Defines(lines[0], key);
      EnvFirstDefinitionWins(lines[1..], key, default, i - 1);
    }
  }

  /** With no line defining `key` (comments never do), env() returns the default. */
  lemma {:induction false} EnvUndefinedGivesDefault(lines: seq<string>, key: string, default: string)
    requires forall j :: 0 <= j < |lines| ==> !Defines(lines[j], key)
    ensures EnvScan(lines, key, default) == default
  {
    if lines != [] {
      assert !Defines(lines[0], key);
      EnvUndefinedGivesDefault(lines[1..], key, default);
    }
  }

  /**
   * A line splits at its first '=': the value keeps any further '=' and is
   * returned trimmed but otherwise verbatim, quotes included.
   */
  lemma SplitAtFirstEquals(name: string, value: string)
    requires '=' !in name
    ensures ParseLine(name + "=" + value) == (Trim(name), Trim(value))
  {
    var line := name + "=" + value;
    assert line == name + ("=" + value);
    IndexOfAfter(name, "=" + value, '=');
    assert line[..|name|] == name;
    assert line[|name| + 1..] == value;
  }
}
