/**
 * `load_env` in `run_ws.py`: reads the `.env` file beside the launcher into a
 * dictionary, a later line overriding an earlier one, unquotes quoted values
 * (dropping a comment after the closing quote), and finally lets `WS_EMAIL`
 * stand in for a missing `WS_USERNAME`. The file is the list of its lines, or
 * None when it does not exist.
 */
module RunWsEnv {
  import opened Wrappers
  import opened Text
  import opened EnvLines

  /** `raw` starts with a quote and that quote occurs again later. */
  predicate Quoted(raw: string) {
    raw != [] && (raw[0] == '"' || raw[0] == '\'') && raw[0] in raw[1..]
  }

  /**
   * The quoted branch: the text between the opening quote and the next same
   * quote, followed by a space and the left-stripped rest of the line unless
   * that rest is empty or starts a comment.
   */
  function Unquote(raw: string): (r: string)
    requires Quoted(raw)
  {
    var k := IndexOf(raw[1..], raw[0]).value;
    var core := raw[1..k + 1];
    var trailing := LStrip(raw[k + 2..]);
    if trailing != [] && trailing[0] == '#' then core
    else core + (if trailing != [] then [' '] + trailing else [])
  }

  /** The quoted branch keeps the text between the quotes, which holds no such quote, at its head. */
  lemma UnquoteShape(raw: string)
    requires Quoted(raw)
    ensures var r := Unquote(raw);
      exists n :: 0 <= n <= |r| && n + 2 <= |raw| && r[..n] == raw[1..n + 1] && raw[n + 1] == raw[0] && raw[0] !in r[..n]
  {
    var k := IndexOf(raw[1..], raw[0]).value;
    var core := raw[1..k + 1];
    assert core == raw[1..][..k] && raw[k + 1] == raw[1..][k];
    var r := Unquote(raw);
    assert r[..k] == core;
    assert 0 <= k <= |r| && k + 2 <= |raw| && r[..k] == raw[1..k + 1] && raw[k + 1] == raw[0] && raw[0] !in r[..k];
  }

  /** The stored value as `load_env` computes it: the '#' cut is applied after unquoting too. */
  function ValueAsWritten(raw: string): (v: string)
    ensures '#' !in v
  {
    CutComment(if Quoted(raw) then Unquote(raw) else raw)
  }

  /** The stored value, with the comment cut applied only to an unquoted value, as the code's comment says. */
  function Value(raw: string): (v: string)
    ensures !Quoted(raw) ==> '#' !in v
  {
    if Quoted(raw) then Unquote(raw) else CutComment(raw)
  }

  /** The two readings differ exactly on a quoted value whose unquoted text holds a '#'. */
  lemma AsWrittenDiffers(raw: string)
    ensures ValueAsWritten(raw) != Value(raw) <==> Quoted(raw) && '#' in Unquote(raw)
  {
    if Quoted(raw) {
      CutCommentShape(Unquote(raw));
    }
  }

  /** `KEY="p#ss"` is loaded as `p` by the code as written, and as `p#ss` by the corrected rule. */
  lemma HashInQuotes()
    ensures ValueAsWritten("\"p#ss\"") == "p"
    ensures Value("\"p#ss\"") == "p#ss"
  {
    assert "\"p#ss\"" == "\"" + "p#ss" + "\"";
    QuotedText("p#ss");
    CutHash();
  }

  /** `"p#ss".split('#', 1)[0].rstrip()` is `p`. */
  lemma CutHash()
    ensures CutComment("p#ss") == "p"
  {
    assert IndexOf("p#ss", '#') == Some(1) by {
      assert "p#ss"[1..] == "#ss";
    }
    assert "p#ss"[..1] == "p" && "p#ss"[2..] == "ss";
    assert SplitOnce("p#ss", '#') == Some(("p", "ss"));
    assert RStrip("p") == "p";
  }

  /** A line's assignment, or None when the line is skipped. */
  function Assignment(line: string): (r: Option<KeyValue>)
    ensures r.None? <==> Skipped(line)
  {
    match SplitLine(line)
    case None => None
    case Some(kv) => Some(KeyValue(kv.key, Value(kv.value)))
  }

  /** The assignments of the lines of the file, one per line. */
  function Assignments(lines: seq<string>): (r: seq<Option<KeyValue>>)
    ensures |r| == |lines|
    ensures forall i :: 0 <= i < |lines| ==> r[i] == Assignment(lines[i])
  {
    seq(|lines|, i requires 0 <= i < |lines| => Assignment(lines[i]))
  }

  /** `data[key] = raw` for each assignment in turn: a later one replaces an earlier one. */
  function Store(data: map<string, string>, assigns: seq<Option<KeyValue>>): (r: map<string, string>)
    decreases |assigns|
  {
    if assigns == [] then data
    else
      Put(Store(data, assigns[..|assigns| - 1]), assigns[|assigns| - 1])
  }

  /** One assignment: `data[key] = value`, or nothing for a skipped line. */
  function Put(data: map<string, string>, a: Option<KeyValue>): (r: map<string, string>)
  {
    match a
    case None => data
    case Some(kv) => data[kv.key := kv.value]
  }

  /** Storing one more assignment is one more `Put`. */
  lemma StoreSnoc(data: map<string, string>, assigns: seq<Option<KeyValue>>, i: nat)
    requires i < |assigns|
    ensures Store(data, assigns[..i + 1]) == Put(Store(data, assigns[..i]), assigns[i])
  {
    assert assigns[..i + 1][..i] == assigns[..i];
  }

  /** The key is assigned by the `i`-th assignment and by none after it. */
  predicate LastAssigns(assigns: seq<Option<KeyValue>>, i: nat, key: string) {
    i < |assigns| && assigns[i].Some? && assigns[i].value.key == key
    && forall j :: i < j < |assigns| ==> assigns[j].None? || assigns[j].value.key != key
  }

  /** The key is assigned by some assignment. */
  predicate Assigns(assigns: seq<Option<KeyValue>>, key: string) {
    exists i :: 0 <= i < |assigns| && assigns[i].Some? && assigns[i].value.key == key
  }

  /** The last assignment of a key decides its value. */
  lemma {:induction false} LastWins(data: map<string, string>, assigns: seq<Option<KeyValue>>, i: nat, key: string)
    requires LastAssigns(assigns, i, key)
    ensures key in Store(data, assigns) && Store(data, assigns)[key] == assigns[i].value.value
    decreases |assigns|
  {
    var init := assigns[..|assigns| - 1];
    if i < |assigns| - 1 {
      assert LastAssigns(init, i, key);
      LastWins(data, init, i, key);
    }
  }

  /** A key no assignment names keeps its old presence and value. */
  lemma {:induction false} Unassigned(data: map<string, string>, assigns: seq<Option<KeyValue>>, key: string)
    requires !Assigns(assigns, key)
    ensures key in Store(data, assigns) <==> key in data
    ensures key in data ==> Store(data, assigns)[key] == data[key]
    decreases |assigns|
  {
    if assigns != [] {
      var init := assigns[..|assigns| - 1];
      Unassigned(data, init, key);
      assert assigns[|assigns| - 1].None? || assigns[|assigns| - 1].value.key != key;
    }
  }

  /** A key that is assigned has a last assignment. */
  lemma {:induction false} AssignedPresent(assigns: seq<Option<KeyValue>>, key: string)
    requires Assigns(assigns, key)
    ensures exists i :: LastAssigns(assigns, i, key)
    decreases |assigns|
  {
    var n := |assigns| - 1;
    if assigns[n].Some? && assigns[n].value.key == key {
      assert LastAssigns(assigns, n, key);
    } else {
      var init := assigns[..n];
      var i :| 0 <= i < |assigns| && assigns[i].Some? && assigns[i].value.key == key;
      assert init[i] == assigns[i];
      AssignedPresent(init, key);
      var m :| LastAssigns(init, m, key);
      assert LastAssigns(assigns, m, key);
    }
  }

  const Username := "WS_USERNAME"
  const Email := "WS_EMAIL"

  /** `WS_EMAIL` stands in for a missing `WS_USERNAME`. */
  function Alias(data: map<string, string>): (r: map<string, string>)
    ensures Username in r <==> Username in data || Email in data
    ensures Username in data ==> r[Username] == data[Username]
    ensures Username !in data && Email in data ==> r[Username] == data[Email]
    ensures forall k :: k != Username ==> (k in r <==> k in data)
    ensures forall k :: k in data && k != Username ==> r[k] == data[k]
  {
    if Username !in data && Email in data then data[Username := data[Email]] else data
  }

  /** `load_env`: nothing for a missing file, otherwise the stored assignments with the alias rule applied. */
  function LoadEnvSpec(file: Option<seq<string>>): (r: map<string, string>)
  {
    match file
    case None => map[]
    case Some(lines) => Alias(Store(map[], Assignments(lines)))
  }

  /**
   * A key other than `WS_USERNAME` is loaded exactly when some line assigns
   * it, with the value of the last such line; `WS_USERNAME` is loaded exactly
   * when some line assigns it or `WS_EMAIL`.
   */
  lemma LoadEnvKeys(lines: seq<string>, key: string)
    ensures key != Username ==> (key in LoadEnvSpec(Some(lines)) <==> Assigns(Assignments(lines), key))
    ensures key == Username ==>
      (key in LoadEnvSpec(Some(lines)) <==> Assigns(Assignments(lines), Username) || Assigns(Assignments(lines), Email))
  {
    var assigns := Assignments(lines);
    StoredKey(assigns, key);
    StoredKey(assigns, Email);
  }

  /** The last assignment of a key other than `WS_USERNAME` is its loaded value. */
  lemma LoadEnvValue(lines: seq<string>, i: nat, key: string)
    requires key != Username && LastAssigns(Assignments(lines), i, key)
    ensures key in LoadEnvSpec(Some(lines)) && LoadEnvSpec(Some(lines))[key] == Assignments(lines)[i].value.value
  {
    LastWins(map[], Assignments(lines), i, key);
  }

  /** Starting from nothing, a key is stored exactly when it is assigned. */
  lemma StoredKey(assigns: seq<Option<KeyValue>>, key: string)
    ensures key in Store(map[], assigns) <==> Assigns(assigns, key)
  {
    if Assigns(assigns, key) {
      AssignedPresent(assigns, key);
      var i :| LastAssigns(assigns, i, key);
      LastWins(map[], assigns, i, key);
    } else {
      Unassigned(map[], assigns, key);
    }
  }

  /** `load_env`: the loop over the lines, then the alias rule. */
  method LoadEnv(file: Option<seq<string>>) returns (data: map<string, string>)
    ensures data == LoadEnvSpec(file)
  {
    data := map[];
    if file.None? {
      return;
    }
    data := StoreLines(file.value);
    if Username !in data && Email in data {
      data := data[Username := data[Email]];
    }
  }

  /** The loop of `load_env` over the lines of the file. */
  method StoreLines(lines: seq<string>) returns (data: map<string, string>)
    ensures data == Store(map[], Assignments(lines))
  {
    data := map[];
    ghost var assigns := Assignments(lines);
    for i := 0 to |lines|
      invariant data == Store(map[], assigns[..i])
    {
      var a := Assignment(lines[i]);
      StoreSnoc(map[], assigns, i);
      data := Put(data, a);
    }
    assert assigns[..|lines|] == assigns;
  }

  /** A line `key="value"` with no double quote in the value loads `value` exactly, '#' included. */
  lemma QuotedRoundTrip(key: string, value: string)
    requires key != [] && '=' !in key && key[0] != '#' && !IsSpace(key[0]) && !IsSpace(key[|key| - 1])
    requires '"' !in value
    ensures Assignment(key + "=\"" + value + "\"") == Some(KeyValue(key, value))
  {
    var quoted := "\"" + value + "\"";
    assert key + "=\"" + value + "\"" == key + "=" + quoted;
    SplitLineRoundTrip(key, quoted);
    QuotedText(value);
  }

  /** `"v"` with no double quote in `v` unquotes to `v`. */
  lemma QuotedText(value: string)
    requires '"' !in value
    ensures Value("\"" + value + "\"") == value
  {
    var quoted := "\"" + value + "\"";
    assert quoted[1..] == value + "\"";
    assert quoted[0] in quoted[1..] by {
      assert quoted[1..][|value|] == '"';
    }
    assert IndexOf(quoted[1..], '"') == Some(|value|) by {
      assert quoted[1..][|value|] == '"';
      assert quoted[1..][..|value|] == value;
    }
    assert quoted[1..|value| + 1] == value;
    assert LStrip(quoted[|value| + 2..]) == [];
  }
}
