/**
 * `load_dotenv_safe` (`utils/env.py`): reads `.env`-style files in turn
 * into the process environment without ever overwriting a variable that is
 * already set. A file is the list of its lines, or None when it is missing
 * or cannot be read; the environment is a map from name to value.
 */
module DotEnv {
  import opened Wrappers
  import opened Text
  import opened EnvLines

  /** A quote character that can open a value. */
  predicate IsQuote(c: char) {
    c == '"' || c == '\''
  }

  /** The value is a quote followed by at least one more character. */
  predicate Quoted(raw: string) {
    |raw| > 1 && IsQuote(raw[0])
  }

  /**
   * The stored value of a stripped value text: a quoted value keeps the text
   * up to the next matching quote (all of it when there is none); any other
   * value is cut at its first '#' and right-stripped.
   */
  function Value(raw: string): (v: string)
    ensures !Quoted(raw) ==> '#' !in v
  {
    if Quoted(raw) then
      match IndexOf(raw[1..], raw[0])
      case Some(k) => raw[1..k + 1]
      case None => raw
    else CutComment(raw)
  }

  /** A closed quoted value is the text strictly between its quotes, which holds no such quote. */
  lemma QuotedValue(raw: string)
    requires Quoted(raw) && raw[0] in raw[1..]
    ensures var v := Value(raw);
      |v| + 2 <= |raw| && raw[|v| + 1] == raw[0] && v == raw[1..|v| + 1] && raw[0] !in v
  {
  }

  /** A line's assignment, or None when the line is skipped. */
  function Assignment(line: string): (r: Option<KeyValue>)
    ensures r.None? <==> Skipped(line)
  {
    match SplitLine(line)
    case None => None
    case Some(kv) => Some(KeyValue(kv.key, Value(kv.value)))
  }

  /** The assignments of the lines of a file, one per line. */
  function Assignments(lines: seq<string>): (r: seq<Option<KeyValue>>)
    ensures |r| == |lines|
    ensures forall i :: 0 <= i < |lines| ==> r[i] == Assignment(lines[i])
  {
    seq(|lines|, i requires 0 <= i < |lines| => Assignment(lines[i]))
  }

  /**
   * Whether `os.environ[key] = value` succeeds: the operating system refuses
   * an empty name and a NUL character in the name or the value, and the
   * exception ends the reading of the current file.
   */
  predicate Settable(a: KeyValue) {
    a.key != [] && '\0' !in a.key && '\0' !in a.value
  }

  /** The environment after the assignments of one file's lines. */
  function Apply(env: map<string, string>, assigns: seq<Option<KeyValue>>): (r: map<string, string>)
    decreases |assigns|
  {
    if assigns == [] then env
    else match assigns[0]
      case None => Apply(env, assigns[1..])
      case Some(a) =>
        if a.key in env then Apply(env, assigns[1..])
        else if !Settable(a) then env
        else Apply(env[a.key := a.value], assigns[1..])
  }

  /** The environment after every file, in order; a missing file is passed over. */
  function LoadFiles(env: map<string, string>, files: seq<Option<seq<string>>>): (r: map<string, string>)
    decreases |files|
  {
    if files == [] then env
    else LoadFiles(if files[0].Some? then Apply(env, Assignments(files[0].value)) else env, files[1..])
  }

  /** A variable that is set stays set, with its value: nothing is ever overwritten. */
  lemma {:induction false} ApplyKeeps(env: map<string, string>, assigns: seq<Option<KeyValue>>)
    ensures forall k :: k in env ==> k in Apply(env, assigns) && Apply(env, assigns)[k] == env[k]
    decreases |assigns|
  {
    if assigns != [] {
      match assigns[0]
      case None => ApplyKeeps(env, assigns[1..]);
      case Some(a) =>
        if a.key in env {
          ApplyKeeps(env, assigns[1..]);
        } else if Settable(a) {
          ApplyKeeps(env[a.key := a.value], assigns[1..]);
        }
    }
  }

  /** Across files too, every variable already set keeps its value. */
  lemma {:induction false} LoadFilesKeeps(env: map<string, string>, files: seq<Option<seq<string>>>)
    ensures forall k :: k in env ==> k in LoadFiles(env, files) && LoadFiles(env, files)[k] == env[k]
    decreases |files|
  {
    if files != [] {
      var next := if files[0].Some? then Apply(env, Assignments(files[0].value)) else env;
      if files[0].Some? {
        ApplyKeeps(env, Assignments(files[0].value));
      }
      LoadFilesKeeps(next, files[1..]);
    }
  }

  /** The first definition of a new variable wins: later lines cannot change it. */
  lemma FirstWins(env: map<string, string>, a: KeyValue, rest: seq<Option<KeyValue>>)
    requires a.key !in env && Settable(a)
    ensures a.key in Apply(env, [Some(a)] + rest) && Apply(env, [Some(a)] + rest)[a.key] == a.value
  {
    assert ([Some(a)] + rest)[1..] == rest;
    ApplyKeeps(env[a.key := a.value], rest);
  }

  /** A variable the lines add comes from one of them, with that line's value. */
  lemma {:induction false} ApplyFrom(env: map<string, string>, assigns: seq<Option<KeyValue>>)
    ensures forall k :: k in Apply(env, assigns) && k !in env ==>
      Some(KeyValue(k, Apply(env, assigns)[k])) in assigns
    decreases |assigns|
  {
    if assigns != [] {
      assert assigns == [assigns[0]] + assigns[1..];
      match assigns[0]
      case None => ApplyFrom(env, assigns[1..]);
      case Some(a) =>
        if a.key in env {
          ApplyFrom(env, assigns[1..]);
        } else if Settable(a) {
          var env' := env[a.key := a.value];
          ApplyFrom(env', assigns[1..]);
          ApplyKeeps(env', assigns[1..]);
        }
    }
  }

  /**
   * `load_dotenv_safe`: for each file that exists, each line's assignment is
   * stored unless the variable is already set; a refused assignment ends
   * that file.
   */
  method LoadDotenvSafe(env: map<string, string>, files: seq<Option<seq<string>>>)
    returns (out: map<string, string>)
    ensures out == LoadFiles(env, files)
  {
    out := env;
    for f := 0 to |files|
      invariant LoadFiles(env, files) == LoadFiles(out, files[f..])
    {
      assert files[f..][1..] == files[f + 1..];
      if files[f].Some? {
        out := LoadFile(out, files[f].value);
      }
    }
    assert files[|files|..] == [];
  }

  /** The lines of one file, inside its `try`. */
  method LoadFile(env: map<string, string>, lines: seq<string>) returns (out: map<string, string>)
    ensures out == Apply(env, Assignments(lines))
  {
    ghost var assigns := Assignments(lines);
    out := env;
    for i := 0 to |lines|
      invariant Apply(env, assigns) == Apply(out, assigns[i..])
    {
      assert assigns[i..][1..] == assigns[i + 1..];
      var a := Assignment(lines[i]);
      if a.Some? && a.value.key !in out {
        if !Settable(a.value) {
          return;
        }
        out := out[a.value.key := a.value.value];
      }
    }
    assert assigns[|lines|..] == [];
  }

  /** A value written between double quotes, with no double quote inside, is stored as it stands. */
  lemma QuotedText(value: string)
    requires '"' !in value
    ensures Value("\"" + value + "\"") == value
  {
    var quoted := "\"" + value + "\"";
    assert quoted[1..] == value + "\"";
    assert IndexOf(quoted[1..], '"') == Some(|value|) by {
      assert quoted[1..][|value|] == '"';
      assert quoted[1..][..|value|] == value;
    }
    assert quoted[1..|value| + 1] == value;
  }

  /** A line `key="value"` sets `key` to `value` exactly, '#' included. */
  lemma QuotedRoundTrip(key: string, value: string)
    requires key != [] && '=' !in key && key[0] != '#' && !IsSpace(key[0]) && !IsSpace(key[|key| - 1])
    requires '"' !in value
    ensures Assignment(key + "=\"" + value + "\"") == Some(KeyValue(key, value))
  {
    var quoted := "\"" + value + "\"";
    assert key + "=\"" + value + "\"" == key + "=" + quoted;
    SplitLineRoundTrip(key, quoted);
    QuotedText(value);
  }
}
