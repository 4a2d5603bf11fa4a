/**
 * The line rule the two `.env` readers share (`utils/env.py` and
 * `load_env` in `run_ws.py`): a line is stripped; a blank line, a '#'
 * comment and a line without '=' are skipped; otherwise it splits at its
 * first '=' into a key and a value, both stripped.
 */
module EnvLines {
  import opened Wrappers
  import opened Text

  /** The stripped key and the stripped value text of one line. */
  datatype KeyValue = KeyValue(key: string, value: string)

  /** A line the readers skip. */
  predicate Skipped(line: string) {
    var t := Strip(line);
    t == [] || t[0] == '#' || '=' !in t
  }

  /** `k, v = line.split('=', 1)` on the stripped line, with `k.strip()` and `v.strip()`. */
  function SplitLine(line: string): (r: Option<KeyValue>)
    ensures r.None? <==> Skipped(line)
    ensures r.Some? ==> '=' !in r.value.key && Strip(r.value.key) == r.value.key && Strip(r.value.value) == r.value.value
  {
    var t := Strip(line);
    if t == [] || t[0] == '#' || '=' !in t then None
    else
      var (k, v) := SplitOnce(t, '=').value;
      StripIdempotent(k);
      StripIdempotent(v);
      StripKeeps(k);
      Some(KeyValue(Strip(k), Strip(v)))
  }

  /** `s.split('#', 1)[0].rstrip()` when `s` holds a '#': the text before the comment. */
  function CutComment(s: string): (r: string)
    ensures '#' !in r
  {
    match SplitOnce(s, '#')
    case Some((before, _)) =>
      StripKeeps(before);
      RStrip(before)
    case None => s
  }

  /**
   * Cutting the comment keeps a prefix of the text, which is all of it when
   * there is no '#', and otherwise does not end in whitespace.
   */
  lemma CutCommentShape(s: string)
    ensures var r := CutComment(s);
      && r == s[..|r|]
      && ('#' !in s ==> r == s)
      && ('#' in s ==> r == [] || !IsSpace(r[|r| - 1]))
  {
    if '#' in s {
      var (before, after) := SplitOnce(s, '#').value;
      assert s == before + ['#'] + after;
      assert before == s[..|before|];
    }
  }

  /** Stripping only removes characters: a character absent from `s` is absent from `Strip(s)`. */
  lemma StripKeeps(s: string)
    ensures forall c :: c in Strip(s) ==> c in s
    ensures forall c :: c in RStrip(s) ==> c in s
  {
    var l := LStrip(s);
    var r := Strip(s);
    var off := |s| - |l|;
    assert r == l[..|r|];
    assert r == s[off..off + |r|];
    forall c | c in r ensures c in s {
      var i :| 0 <= i < |r| && r[i] == c;
      assert s[off + i] == c;
    }
    var t := RStrip(s);
    forall c | c in t ensures c in s {
      var i :| 0 <= i < |t| && t[i] == c;
      assert s[i] == c;
    }
  }

  /**
   * A line written as `key=value`, with a key that has no '=' and no
   * surrounding whitespace and does not start a comment, and a value that
   * starts and ends with non-whitespace, splits back into that key and value.
   */
  lemma SplitLineRoundTrip(key: string, value: string)
    requires key != [] && '=' !in key && key[0] != '#' && !IsSpace(key[0]) && !IsSpace(key[|key| - 1])
    requires value != [] && !IsSpace(value[0]) && !IsSpace(value[|value| - 1])
    ensures SplitLine(key + "=" + value) == Some(KeyValue(key, value))
  {
    var line := key + "=" + value;
    StripEnds(line);
    assert line[|key|] == '=';
    assert '=' in line;
    var (k, v) := SplitOnce(line, '=').value;
    assert k == key by {
      assert line == k + ['='] + v;
      assert k == line[..|k|] && key == line[..|key|];
    }
    assert v == value by {
      assert line == k + ['='] + v;
      assert v == line[|k| + 1..];
    }
    StripEnds(key);
    StripEnds(value);
  }
}
