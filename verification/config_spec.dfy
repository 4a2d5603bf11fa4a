/**
 * The settings document of the desktop application (`wsapp_gui/config.py`):
 * nested JSON objects addressed by dotted keys, the defaults merged into a
 * loaded document, and the window geometry kept in it as "WxH+X+Y".
 * Objects keep their entries in insertion order, as Python dicts do.
 */
module ConfigSpec {
  import opened Wrappers
  import opened Text

  /** A value of the JSON document. */
  datatype Json =
    | JNull
    | JBool(b: bool)
    | JInt(i: int)
    | JStr(s: string)
    | JOther(text: string)  // a float or a list, carried with the text Python prints for it
    | JObj(fields: Fields)

  /** The entries of an object, oldest first. */
  datatype Fields = Empty | Entry(key: string, value: Json, rest: Fields)

  /** `d.get(k)`: the value stored under `k`, if any. */
  function Find(fs: Fields, k: string): Option<Json> {
    match fs
    case Empty => None
    case Entry(k2, v, r) => if k2 == k then Some(v) else Find(r, k)
  }

  /** The keys of an object in iteration order. */
  function Keys(fs: Fields): seq<string> {
    match fs
    case Empty => []
    case Entry(k, _, r) => [k] + Keys(r)
  }

  /** `d[k] = v`: an existing key keeps its place and takes the new value; a new key goes last. */
  function Put(fs: Fields, k: string, v: Json): (r: Fields)
    ensures forall k2 :: Find(r, k2) == if k2 == k then Some(v) else Find(fs, k2)
    ensures Keys(r) == if Find(fs, k).Some? then Keys(fs) else Keys(fs) + [k]
  {
    match fs
    case Empty => Entry(k, v, Empty)
    case Entry(k2, v2, rest) => if k2 == k then Entry(k, v, rest) else Entry(k2, v2, Put(rest, k, v))
  }

  /** Storing the value already there changes nothing. */
  lemma {:induction false} PutSame(fs: Fields, k: string, v: Json)
    requires Find(fs, k) == Some(v)
    ensures Put(fs, k, v) == fs
  {
    match fs
    case Entry(k2, v2, rest) =>
      if k2 != k { PutSame(rest, k, v); }
  }

  /** Each key occurs once, at every level: what a Python dict guarantees. */
  predicate WellKeyed(j: Json) {
    match j
    case JObj(fs) => WellKeyedFields(fs)
    case _ => true
  }

  predicate WellKeyedFields(fs: Fields) {
    match fs
    case Empty => true
    case Entry(k, v, r) => Find(r, k).None? && WellKeyed(v) && WellKeyedFields(r)
  }

  lemma {:induction false} FindWellKeyed(fs: Fields, k: string)
    requires WellKeyedFields(fs) && Find(fs, k).Some?
    ensures WellKeyed(Find(fs, k).value)
  {
    match fs
    case Entry(k2, v, r) =>
      if k2 != k { FindWellKeyed(r, k); }
  }

  // ---------------------------------------------------------------------------
  // Reading and writing by path (`get` and `set`)
  // ---------------------------------------------------------------------------

  /** The value reached by following `path` down from `j`; None when a step is missing or not an object. */
  function Lookup(j: Json, path: seq<string>): Option<Json>
    decreases |path|
  {
    if path == [] then Some(j)
    else match j
      case JObj(fs) => (
        match Find(fs, path[0])
        case None => None
        case Some(c) => Lookup(c, path[1..]))
      case _ => None
  }

  /** A value that is present and is not an object: `set` cannot descend into it. */
  predicate NotObject(o: Option<Json>) {
    o.Some? && !o.value.JObj?
  }

  /** Some proper prefix of `path` leads to a value that is not an object. */
  predicate Blocked(fs: Fields, path: seq<string>) {
    exists j :: 1 <= j < |path| && NotObject(Lookup(JObj(fs), path[..j]))
  }

  /** Two paths part ways: neither is a prefix of the other. */
  predicate Diverge(a: seq<string>, b: seq<string>) {
    exists i :: 0 <= i < |a| && i < |b| && a[i] != b[i]
  }

  const TypeError := "TypeError: an intermediate setting is not a dict"

  /**
   * `set` on an already split key: walks down the path creating the missing
   * objects, then stores `v` under the last key. Descending into a value that
   * is not an object raises.
   */
  function Assign(fs: Fields, path: seq<string>, v: Json): Result<Fields>
    requires |path| >= 1
    decreases |path|
  {
    if |path| == 1 then Ok(Put(fs, path[0], v))
    else
      var child := Find(fs, path[0]).GetOr(JObj(Empty));
      if !child.JObj? then Err(TypeError)
      else match Assign(child.fields, path[1..], v)
        case Err(e) => Err(e)
        case Ok(f) => Ok(Put(fs, path[0], JObj(f)))
  }

  /** One step of `Lookup`. */
  lemma LookupCons(j: Json, path: seq<string>)
    requires path != []
    ensures Lookup(j, path) ==
      if j.JObj? && Find(j.fields, path[0]).Some? then Lookup(Find(j.fields, path[0]).value, path[1..]) else None
  {
  }

  lemma LookupEmpty(path: seq<string>)
    requires |path| >= 1
    ensures Lookup(JObj(Empty), path) == None
  {
  }

  /** `Lookup` through the first step of a path. */
  lemma LookupStep(fs: Fields, path: seq<string>, j: nat)
    requires 1 <= j <= |path|
    ensures Lookup(JObj(fs), path[..j]) ==
      match Find(fs, path[0])
      case None => None
      case Some(c) => Lookup(c, path[1..][..j - 1])
  {
    assert path[..j][0] == path[0];
    assert path[..j][1..] == path[1..][..j - 1];
  }

  /** `set` raises exactly when some proper prefix of the key leads to a value that is not a dict. */
  lemma {:induction false} AssignOkIff(fs: Fields, path: seq<string>, v: Json)
    requires |path| >= 1
    ensures Assign(fs, path, v).Ok? <==> !Blocked(fs, path)
    decreases |path|
  {
    if |path| > 1 {
      var rest := path[1..];
      match Find(fs, path[0])
      case None =>
        AssignOkIff(Empty, rest, v);
        forall j | 1 <= j < |path| ensures !NotObject(Lookup(JObj(fs), path[..j])) {
          LookupStep(fs, path, j);
        }
        forall j | 1 <= j < |rest| ensures !NotObject(Lookup(JObj(Empty), rest[..j])) {
          LookupEmpty(rest[..j]);
        }
      case Some(c) =>
        LookupStep(fs, path, 1);
        assert path[1..][..0] == [];
        if c.JObj? {
          AssignOkIff(c.fields, rest, v);
          assert Blocked(fs, path) <==> Blocked(c.fields, rest) by {
            if Blocked(fs, path) {
              var j :| 1 <= j < |path| && NotObject(Lookup(JObj(fs), path[..j]));
              LookupStep(fs, path, j);
              assert j - 1 >= 1;
            }
            if Blocked(c.fields, rest) {
              var j :| 1 <= j < |rest| && NotObject(Lookup(JObj(c.fields), rest[..j]));
              LookupStep(fs, path, j + 1);
              assert 1 <= j + 1 < |path|;
            }
          }
        } else {
          assert NotObject(Lookup(JObj(fs), path[..1]));
        }
    }
  }

  /** After `set(key, v)`, `get(key)` gives `v`. */
  lemma {:induction false} AssignThenLookup(fs: Fields, path: seq<string>, v: Json)
    requires |path| >= 1 && Assign(fs, path, v).Ok?
    ensures Lookup(JObj(Assign(fs, path, v).value), path) == Some(v)
    decreases |path|
  {
    if |path| > 1 {
      var child := Find(fs, path[0]).GetOr(JObj(Empty));
      AssignThenLookup(child.fields, path[1..], v);
    }
  }

  /** `set(key, v)` leaves every path that parts ways with `key` as it was. */
  lemma {:induction false} AssignFrame(fs: Fields, path: seq<string>, v: Json, other: seq<string>)
    requires |path| >= 1 && Assign(fs, path, v).Ok?
    requires Diverge(path, other)
    ensures Lookup(JObj(Assign(fs, path, v).value), other) == Lookup(JObj(fs), other)
    decreases |path|
  {
    var i :| 0 <= i < |path| && i < |other| && path[i] != other[i];
    if path[0] != other[0] {
    } else {
      assert i >= 1;
      var child := Find(fs, path[0]).GetOr(JObj(Empty));
      assert Diverge(path[1..], other[1..]) by {
        assert path[1..][i - 1] != other[1..][i - 1];
      }
      AssignFrame(child.fields, path[1..], v, other[1..]);
      if Find(fs, path[0]).None? {
        LookupEmpty(other[1..]);
      }
    }
  }

  // ---------------------------------------------------------------------------
  // Merging the defaults (`_merge_defaults`)
  // ---------------------------------------------------------------------------

  /**
   * Walks the defaults in order: a key the settings lack takes the default;
   * a key present on both sides as objects is merged recursively; any other
   * present key is left alone.
   */
  function MergeDefaults(c: Fields, d: Fields): Fields
    decreases d
  {
    match d
    case Empty => c
    case Entry(k, dv, r) => MergeDefaults(MergeOne(c, k, dv), r)
  }

  function MergeOne(c: Fields, k: string, dv: Json): Fields
    decreases dv
  {
    match Find(c, k)
    case None => Put(c, k, dv)
    case Some(cv) =>
      if cv.JObj? && dv.JObj? then Put(c, k, JObj(MergeDefaults(cv.fields, dv.fields))) else c
  }

  /** Both sides hold an object under `k`. */
  predicate BothObjects(c: Fields, d: Fields, k: string) {
    Find(c, k).Some? && Find(c, k).value.JObj? && Find(d, k).Some? && Find(d, k).value.JObj?
  }

  /** What the merge leaves under each top-level key. */
  lemma {:induction false} FindMerge(c: Fields, d: Fields, k: string)
    requires WellKeyedFields(d)
    ensures Find(c, k).None? ==> Find(MergeDefaults(c, d), k) == Find(d, k)
    ensures Find(c, k).Some? && !BothObjects(c, d, k) ==> Find(MergeDefaults(c, d), k) == Find(c, k)
    ensures BothObjects(c, d, k) ==>
      Find(MergeDefaults(c, d), k) == Some(JObj(MergeDefaults(Find(c, k).value.fields, Find(d, k).value.fields)))
    decreases d
  {
    match d
    case Empty =>
    case Entry(k2, dv, r) =>
      FindMerge(MergeOne(c, k2, dv), r, k);
  }

  /**
   * The merge never overwrites: every path the settings already define still
   * leads somewhere, and to the same value when that value is not an object.
   */
  lemma {:induction false} MergeKeepsSettings(c: Fields, d: Fields, path: seq<string>)
    requires WellKeyedFields(d)
    requires Lookup(JObj(c), path).Some?
    ensures Lookup(JObj(MergeDefaults(c, d)), path).Some?
    ensures !Lookup(JObj(c), path).value.JObj? ==>
      Lookup(JObj(MergeDefaults(c, d)), path) == Lookup(JObj(c), path)
    decreases |path|
  {
    if path != [] {
      var k := path[0];
      FindMerge(c, d, k);
      if BothObjects(c, d, k) {
        FindWellKeyed(d, k);
        MergeKeepsSettings(Find(c, k).value.fields, Find(d, k).value.fields, path[1..]);
      }
    }
  }

  /** Every path the defaults define is present after the merge, unless the settings block it with a non-object. */
  lemma {:induction false} MergeFillsDefaults(c: Fields, d: Fields, path: seq<string>)
    requires WellKeyedFields(d)
    requires Lookup(JObj(d), path).Some? && !Blocked(c, path)
    ensures Lookup(JObj(MergeDefaults(c, d)), path).Some?
    decreases |path|
  {
    if path != [] {
      var k := path[0];
      FindMerge(c, d, k);
      if Find(c, k).Some? && |path| > 1 {
        LookupStep(c, path, 1);
        assert path[..1] == [k];
        assert !NotObject(Lookup(JObj(c), path[..1]));
        if BothObjects(c, d, k) {
          var cf := Find(c, k).value.fields;
          FindWellKeyed(d, k);
          assert !Blocked(cf, path[1..]) by {
            forall j | 1 <= j < |path[1..]| ensures !NotObject(Lookup(JObj(cf), path[1..][..j])) {
              LookupStep(c, path, j + 1);
              assert !NotObject(Lookup(JObj(c), path[..j + 1]));
            }
          }
          MergeFillsDefaults(cf, Find(d, k).value.fields, path[1..]);
        }
      } else if Find(c, k).Some? {
        MergeKeepsSettings(c, d, path);
      }
    }
  }

  /** `c` already holds every default key, recursively wherever both sides are objects. */
  predicate Covers(c: Fields, d: Fields)
    decreases d
  {
    match d
    case Empty => true
    case Entry(k, dv, r) =>
      Find(c, k).Some?
      && (Find(c, k).value.JObj? && dv.JObj? ==> Covers(Find(c, k).value.fields, dv.fields))
      && Covers(c, r)
  }

  /** Every entry of `e` is what `d` finds under its key. */
  predicate AgreesWith(e: Fields, d: Fields) {
    match e
    case Empty => true
    case Entry(k, v, r) => Find(d, k) == Some(v) && AgreesWith(r, d)
  }

  /** Merging defaults the settings already cover changes nothing. */
  lemma {:induction false} CoveredUnchanged(c: Fields, d: Fields)
    requires Covers(c, d)
    ensures MergeDefaults(c, d) == c
    decreases d
  {
    match d
    case Empty =>
    case Entry(k, dv, r) =>
      var cv := Find(c, k).value;
      if cv.JObj? && dv.JObj? {
        CoveredUnchanged(cv.fields, dv.fields);
        PutSame(c, k, cv);
      }
      CoveredUnchanged(c, r);
  }

  lemma {:induction false} AgreesExtend(e: Fields, d: Fields, k: string, v: Json)
    requires AgreesWith(e, d) && Find(d, k).None?
    ensures AgreesWith(e, Entry(k, v, d))
  {
    match e
    case Empty =>
    case Entry(k2, v2, r) =>
      AgreesExtend(r, d, k, v);
  }

  lemma {:induction false} SelfAgrees(d: Fields)
    requires WellKeyedFields(d)
    ensures AgreesWith(d, d)
  {
    match d
    case Empty =>
    case Entry(k, v, r) =>
      SelfAgrees(r);
      AgreesExtend(r, r, k, v);
  }

  lemma {:induction false} SelfCovers(d: Fields, e: Fields)
    requires WellKeyedFields(d) && AgreesWith(e, d)
    ensures Covers(d, e)
    decreases e
  {
    match e
    case Empty =>
    case Entry(k, v, r) =>
      if v.JObj? {
        FindWellKeyed(d, k);
        SelfAgrees(v.fields);
        SelfCovers(v.fields, v.fields);
      }
      SelfCovers(d, r);
  }

  /** After a merge the settings cover the defaults. */
  lemma {:induction false} MergeCovers(c: Fields, d: Fields)
    requires WellKeyedFields(d)
    ensures Covers(MergeDefaults(c, d), d)
    decreases d, 1
  {
    SelfAgrees(d);
    MergeCoversFrom(c, d, d);
  }

  lemma {:induction false} MergeCoversFrom(c: Fields, d: Fields, e: Fields)
    requires WellKeyedFields(d) && AgreesWith(e, d)
    ensures Covers(MergeDefaults(c, d), e)
    decreases e, 0
  {
    match e
    case Empty =>
    case Entry(k, dv, r) =>
      FindMerge(c, d, k);
      if Find(c, k).None? {
        if dv.JObj? {
          FindWellKeyed(d, k);
          SelfAgrees(dv.fields);
          SelfCovers(dv.fields, dv.fields);
        }
      } else if BothObjects(c, d, k) {
        FindWellKeyed(d, k);
        MergeCovers(Find(c, k).value.fields, dv.fields);
      }
      MergeCoversFrom(c, d, r);
  }

  /** Merging the same defaults twice is the same as merging them once. */
  lemma MergeIdempotent(c: Fields, d: Fields)
    requires WellKeyedFields(d)
    ensures MergeDefaults(MergeDefaults(c, d), d) == MergeDefaults(c, d)
  {
    MergeCovers(c, d);
    CoveredUnchanged(MergeDefaults(c, d), d);
  }

  // ---------------------------------------------------------------------------
  // The defaults (`_set_defaults`)
  // ---------------------------------------------------------------------------

  function Obj(fs: Fields): Json { JObj(fs) }

  const FontDefaults: Fields :=
    Entry("size", JInt(10), Entry("family", JStr("Segoe UI"), Empty))

  const MediaDefaults: Fields :=
    Entry("cache_ttl_sec", JInt(3600), Entry("detail_logo_px", JInt(64), Empty))

  const NotificationDefaults: Fields :=
    Entry("info", JBool(false), Entry("warn", JBool(true), Entry("alert", JBool(true), Empty)))

  const WindowDefaults: Fields :=
    Entry("width", JInt(1200), Entry("height", JInt(800), Entry("x", JNull, Entry("y", JNull, Empty))))

  const ExportDefaults: Fields :=
    Entry("default_format", JStr("csv"), Entry("include_headers", JBool(true), Empty))

  const TelegramDefaults: Fields :=
    Entry("enabled", JBool(false),
    Entry("chat_id", JStr(""),
    Entry("include_technical", JBool(true),
    Entry("tech_format", JStr("plain"), Empty))))

  /** The default settings, in the order they are declared. */
  const DefaultSettings: Fields :=
    Entry("theme", JStr("light"),
    Entry("ui", Obj(Entry("font", Obj(FontDefaults), Empty)),
    Entry("media", Obj(MediaDefaults),
    Entry("notifications", Obj(NotificationDefaults),
    Entry("ai", Obj(Entry("enhanced", JBool(true), Empty)),
    Entry("window", Obj(WindowDefaults),
    Entry("auto_login", JBool(true),
    Entry("refresh_interval", JInt(300000),
    Entry("export", Obj(ExportDefaults),
    Entry("integrations", Obj(Entry("telegram", Obj(TelegramDefaults), Empty)),
    Empty))))))))))

  // ---------------------------------------------------------------------------
  // Window geometry (`get_window_geometry`, `save_window_geometry`)
  // ---------------------------------------------------------------------------

  /** Python's `repr` of a value; strings are quoted without escaping. */
  function Repr(j: Json): string {
    match j
    case JNull => "None"
    case JBool(b) => if b then "True" else "False"
    case JInt(i) => IntToString(i)
    case JStr(s) => "'" + s + "'"
    case JOther(t) => t
    case JObj(fs) => "{" + ReprFields(fs) + "}"
  }

  function ReprFields(fs: Fields): string {
    match fs
    case Empty => ""
    case Entry(k, v, Empty) => "'" + k + "': " + Repr(v)
    case Entry(k, v, r) => "'" + k + "': " + Repr(v) + ", " + ReprFields(r)
  }

  /** The text an f-string prints for a value. */
  function Show(j: Json): string {
    if j.JStr? then j.s else Repr(j)
  }

  /** `get("window.<name>", default)`: the path is the split key (see `WindowKey`). */
  function WindowSetting(c: Fields, name: string, default: Json): Json {
    Lookup(JObj(c), ["window", name]).GetOr(default)
  }

  /** "WxH", followed by "+X+Y" when both coordinates are set. */
  function WindowGeometry(c: Fields): string {
    var w := WindowSetting(c, "width", JInt(1200));
    var h := WindowSetting(c, "height", JInt(800));
    var x := WindowSetting(c, "x", JNull);
    var y := WindowSetting(c, "y", JNull);
    var size := Show(w) + ['x'] + Show(h);
    if x != JNull && y != JNull then size + ['+'] + (Show(x) + ['+'] + Show(y)) else size
  }

  /** `set("window.<name>", v)`. */
  function SetWindowSetting(c: Fields, name: string, v: Json): Result<Fields> {
    Assign(c, ["window", name], v)
  }

  /**
   * `save_window_geometry`: the position when there are two '+', then the size
   * when there is an 'x'. A number `int` rejects, or a size that does not split
   * into exactly two pieces, stops the parse silently, keeping what was already
   * stored; an error from `set` propagates.
   */
  function SaveGeometry(c: Fields, g: string): Result<Fields> {
    match SplitOnce(g, '+')
    case None => SaveSize(c, g)
    case Some((size, pos)) =>
      match SplitOnce(pos, '+')
      case None => SaveSize(c, size)
      case Some((xs, ys)) => SavePosition(c, xs, ys, size)
  }

  /** Both coordinates, then the size. */
  function SavePosition(c: Fields, xs: string, ys: string, size: string): Result<Fields> {
    match ParseInt(xs)
    case None => Ok(c)
    case Some(x) =>
      match SetWindowSetting(c, "x", JInt(x))
      case Err(e) => Err(e)
      case Ok(c1) => SaveY(c1, ys, size)
  }

  /** The y coordinate, then the size. */
  function SaveY(c: Fields, ys: string, size: string): Result<Fields> {
    match ParseInt(ys)
    case None => Ok(c)
    case Some(y) =>
      match SetWindowSetting(c, "y", JInt(y))
      case Err(e) => Err(e)
      case Ok(c1) => SaveSize(c1, size)
  }

  /** The size "WxH": stored only when it splits into exactly two pieces. */
  function SaveSize(c: Fields, size: string): Result<Fields> {
    if 'x' !in size then Ok(c)
    else
      var pieces := Split(size, 'x');
      if |pieces| != 2 then Ok(c) else SaveDims(c, pieces[0], pieces[1])
  }

  /** The width, then the height. */
  function SaveDims(c: Fields, ws: string, hs: string): Result<Fields> {
    match ParseInt(ws)
    case None => Ok(c)
    case Some(w) =>
      match SetWindowSetting(c, "width", JInt(w))
      case Err(e) => Err(e)
      case Ok(c1) => SaveHeight(c1, hs)
  }

  /** The height. */
  function SaveHeight(c: Fields, hs: string): Result<Fields> {
    match ParseInt(hs)
    case None => Ok(c)
    case Some(h) => SetWindowSetting(c, "height", JInt(h))
  }

  /**
   * How an operation that may raise left the settings: on success they are
   * the computed ones and the call returns normally; on an error they are
   * unchanged and the call raises that error.
   */
  predicate Outcome(before: Fields, after: Fields, r: Result<()>, s: Result<Fields>) {
    (s.Ok? ==> r.Ok? && after == s.value) && (s.Err? ==> r == Err(s.error) && after == before)
  }

  /** The geometry text "WxH+X+Y" for a size and a position. */
  function Geometry(w: int, h: int, x: int, y: int): string {
    (IntToString(w) + ['x'] + IntToString(h)) + ['+'] + (IntToString(x) + ['+'] + IntToString(y))
  }

  /** The `window` setting is absent or an object, so the window keys can be stored. */
  predicate WindowStorable(c: Fields) {
    Find(c, "window").None? || Find(c, "window").value.JObj?
  }

  /** The first `c` in `a + [c] + b` is the one after `a` when `a` holds none. */
  lemma {:induction false} IndexAfter(a: string, b: string, c: char)
    requires c !in a
    ensures IndexOf(a + [c] + b, c) == Some(|a|)
  {
    var s := a + [c] + b;
    if a != [] {
      assert a[0] in a;
      assert s[1..] == a[1..] + [c] + b;
      IndexAfter(a[1..], b, c);
    }
  }

  /** Splitting at the first `c` when `a` holds none. */
  lemma SplitOnceAt(a: string, b: string, c: char)
    requires c !in a
    ensures SplitOnce(a + [c] + b, c) == Some((a, b))
  {
    var s := a + [c] + b;
    IndexAfter(a, b, c);
    assert s[..|a|] == a;
    assert s[|a| + 1..] == b;
  }

  /** A key with exactly one separator splits into its two halves. */
  lemma SplitInTwo(a: string, b: string, c: char)
    requires c !in a && c !in b
    ensures Split(a + [c] + b, c) == [a, b]
  {
    SplitOnceAt(a, b, c);
  }

  /** The key "window.<name>" splits into the path ["window", name]. */
  lemma WindowKey(name: string)
    requires '.' !in name
    ensures Split("window." + name, '.') == ["window", name]
  {
    assert '.' !in "window";
    assert "window." == "window" + ['.'];
    SplitInTwo("window", name, '.');
  }

  /** The text of an integer holds only digits and a minus sign. */
  lemma IntTextChars(i: int)
    ensures '+' !in IntToString(i) && 'x' !in IntToString(i)
  {
    var d := NatToString(if i < 0 then -i else i);
    assert forall k :: 0 <= k < |d| ==> IsDigit(d[k]);
  }

  /** Storing one window key when the window is absent or an object. */
  lemma SetWindow(c: Fields, name: string, v: Json)
    requires WindowStorable(c)
    ensures Assign(c, ["window", name], v).Ok?
    ensures WindowStorable(Assign(c, ["window", name], v).value)
    ensures Lookup(JObj(Assign(c, ["window", name], v).value), ["window", name]) == Some(v)
  {
    AssignThenLookup(c, ["window", name], v);
  }

  /** Storing a window key raises exactly when the window setting is not a dict, and leaves it a dict. */
  lemma SetWindowOk(c: Fields, name: string, v: Json)
    ensures SetWindowSetting(c, name, v).Ok? <==> WindowStorable(c)
    ensures SetWindowSetting(c, name, v).Ok? ==> WindowStorable(SetWindowSetting(c, name, v).value)
  {
    var path := ["window", name];
    assert |path| == 2 && path[0] == "window" && path[1..] == [name];
    var child := Find(c, "window").GetOr(JObj(Empty));
    assert child.JObj? <==> WindowStorable(c);
    if child.JObj? {
      assert Assign(child.fields, [name], v).Ok?;
      assert Assign(c, path, v) == Ok(Put(c, "window", JObj(Put(child.fields, name, v))));
    }
  }

  /** A window key stored after another leaves the other in place. */
  lemma SetWindowFrame(c: Fields, name: string, v: Json, other: string)
    requires WindowStorable(c) && name != other
    ensures Assign(c, ["window", name], v).Ok?
    ensures Lookup(JObj(Assign(c, ["window", name], v).value), ["window", other])
      == Lookup(JObj(c), ["window", other])
  {
    SetWindow(c, name, v);
    assert ["window", name][1] != ["window", other][1];
    AssignFrame(c, ["window", name], v, ["window", other]);
  }

  /** How `save_window_geometry` takes "WxH+X+Y" apart. */
  lemma GeometryParts(w: int, h: int, x: int, y: int)
    ensures var W, H, X, Y := IntToString(w), IntToString(h), IntToString(x), IntToString(y);
      SplitOnce(Geometry(w, h, x, y), '+') == Some((W + ['x'] + H, X + ['+'] + Y))
      && SplitOnce(X + ['+'] + Y, '+') == Some((X, Y))
      && 'x' in W + ['x'] + H && Split(W + ['x'] + H, 'x') == [W, H]
      && ParseInt(W) == Some(w) && ParseInt(H) == Some(h)
      && ParseInt(X) == Some(x) && ParseInt(Y) == Some(y)
  {
    var W, H, X, Y := IntToString(w), IntToString(h), IntToString(x), IntToString(y);
    IntTextChars(w); IntTextChars(h); IntTextChars(x); IntTextChars(y);
    IntRoundTrip(w); IntRoundTrip(h); IntRoundTrip(x); IntRoundTrip(y);
    assert '+' !in W + ['x'] + H;
    SplitOnceAt(W + ['x'] + H, X + ['+'] + Y, '+');
    SplitOnceAt(X, Y, '+');
    SplitInTwo(W, H, 'x');
    assert (W + ['x'] + H)[|W|] == 'x';
  }

  /** Storing four distinct window keys in turn leaves each holding its value. */
  lemma StoreWindow(c: Fields, n1: string, v1: Json, n2: string, v2: Json, n3: string, v3: Json, n4: string, v4: Json)
    requires WindowStorable(c)
    requires n1 != n2 && n1 != n3 && n1 != n4 && n2 != n3 && n2 != n4 && n3 != n4
    ensures var c1 := SetWindowSetting(c, n1, v1);
      c1.Ok? && var c2 := SetWindowSetting(c1.value, n2, v2);
      c2.Ok? && var c3 := SetWindowSetting(c2.value, n3, v3);
      c3.Ok? && var c4 := SetWindowSetting(c3.value, n4, v4);
      c4.Ok?
      && Lookup(JObj(c4.value), ["window", n1]) == Some(v1)
      && Lookup(JObj(c4.value), ["window", n2]) == Some(v2)
      && Lookup(JObj(c4.value), ["window", n3]) == Some(v3)
      && Lookup(JObj(c4.value), ["window", n4]) == Some(v4)
  {
    SetWindow(c, n1, v1);
    var c1 := Assign(c, ["window", n1], v1).value;
    SetWindow(c1, n2, v2);
    SetWindowFrame(c1, n2, v2, n1);
    var c2 := Assign(c1, ["window", n2], v2).value;
    SetWindow(c2, n3, v3);
    SetWindowFrame(c2, n3, v3, n1);
    SetWindowFrame(c2, n3, v3, n2);
    var c3 := Assign(c2, ["window", n3], v3).value;
    SetWindow(c3, n4, v4);
    SetWindowFrame(c3, n4, v4, n1);
    SetWindowFrame(c3, n4, v4, n2);
    SetWindowFrame(c3, n4, v4, n3);
  }

  /** A window holding four integers reads back as their geometry text. */
  lemma ReadGeometry(c: Fields, w: int, h: int, x: int, y: int)
    requires Lookup(JObj(c), ["window", "width"]) == Some(JInt(w))
    requires Lookup(JObj(c), ["window", "height"]) == Some(JInt(h))
    requires Lookup(JObj(c), ["window", "x"]) == Some(JInt(x))
    requires Lookup(JObj(c), ["window", "y"]) == Some(JInt(y))
    ensures WindowGeometry(c) == Geometry(w, h, x, y)
  {
    assert WindowSetting(c, "width", JInt(1200)) == JInt(w);
    assert WindowSetting(c, "height", JInt(800)) == JInt(h);
    assert WindowSetting(c, "x", JNull) == JInt(x);
    assert WindowSetting(c, "y", JNull) == JInt(y);
  }

  /** "WxH+X+Y" is stored as the position X, Y followed by the size "WxH". */
  lemma SaveGeometryParts(c: Fields, w: int, h: int, x: int, y: int)
    ensures SaveGeometry(c, Geometry(w, h, x, y))
      == SavePosition(c, IntToString(x), IntToString(y), IntToString(w) + ['x'] + IntToString(h))
  {
    GeometryParts(w, h, x, y);
  }

  /** Storing a position and a size whose numbers all parse. */
  lemma SavePositionStores(c: Fields, X: string, Y: string, W: string, H: string, x: int, y: int, w: int, h: int)
    requires WindowStorable(c)
    requires ParseInt(X) == Some(x) && ParseInt(Y) == Some(y)
    requires ParseInt(W) == Some(w) && ParseInt(H) == Some(h)
    requires 'x' in W + ['x'] + H && Split(W + ['x'] + H, 'x') == [W, H]
    ensures var r := SavePosition(c, X, Y, W + ['x'] + H);
      r.Ok?
      && Lookup(JObj(r.value), ["window", "width"]) == Some(JInt(w))
      && Lookup(JObj(r.value), ["window", "height"]) == Some(JInt(h))
      && Lookup(JObj(r.value), ["window", "x"]) == Some(JInt(x))
      && Lookup(JObj(r.value), ["window", "y"]) == Some(JInt(y))
  {
    StoreWindow(c, "x", JInt(x), "y", JInt(y), "width", JInt(w), "height", JInt(h));
    var c1 := SetWindowSetting(c, "x", JInt(x)).value;
    var c2 := SetWindowSetting(c1, "y", JInt(y)).value;
    var c3 := SetWindowSetting(c2, "width", JInt(w)).value;
    var c4 := SetWindowSetting(c3, "height", JInt(h));
    assert SaveHeight(c3, H) == c4;
    assert SaveDims(c2, W, H) == c4;
    assert SaveSize(c2, W + ['x'] + H) == c4;
    assert SaveY(c1, Y, W + ['x'] + H) == SaveSize(c2, W + ['x'] + H);
    assert SavePosition(c, X, Y, W + ['x'] + H) == SaveSize(c2, W + ['x'] + H);
  }

  /** Saving the geometry of a window and reading it back gives the same text. */
  lemma GeometryRoundTrip(c: Fields, w: int, h: int, x: int, y: int)
    requires WindowStorable(c)
    ensures SaveGeometry(c, Geometry(w, h, x, y)).Ok?
    ensures WindowGeometry(SaveGeometry(c, Geometry(w, h, x, y)).value) == Geometry(w, h, x, y)
  {
    var W, H, X, Y := IntToString(w), IntToString(h), IntToString(x), IntToString(y);
    GeometryParts(w, h, x, y);
    SaveGeometryParts(c, w, h, x, y);
    SavePositionStores(c, X, Y, W, H, x, y, w, h);
    ReadGeometry(SavePosition(c, X, Y, W + ['x'] + H).value, w, h, x, y);
  }

  lemma SaveHeightNeverRaises(c: Fields, hs: string)
    requires WindowStorable(c)
    ensures SaveHeight(c, hs).Ok?
  {
    if ParseInt(hs).Some? {
      SetWindowOk(c, "height", JInt(ParseInt(hs).value));
    }
  }

  lemma SaveDimsNeverRaises(c: Fields, ws: string, hs: string)
    requires WindowStorable(c)
    ensures SaveDims(c, ws, hs).Ok?
  {
    if ParseInt(ws).Some? {
      var w := ParseInt(ws).value;
      SetWindowOk(c, "width", JInt(w));
      SaveHeightNeverRaises(SetWindowSetting(c, "width", JInt(w)).value, hs);
    }
  }

  lemma SaveSizeNeverRaises(c: Fields, size: string)
    requires WindowStorable(c)
    ensures SaveSize(c, size).Ok?
  {
    if 'x' in size && |Split(size, 'x')| == 2 {
      SaveDimsNeverRaises(c, Split(size, 'x')[0], Split(size, 'x')[1]);
    }
  }

  lemma SaveYNeverRaises(c: Fields, ys: string, size: string)
    requires WindowStorable(c)
    ensures SaveY(c, ys, size).Ok?
  {
    if ParseInt(ys).Some? {
      var y := ParseInt(ys).value;
      SetWindowOk(c, "y", JInt(y));
      SaveSizeNeverRaises(SetWindowSetting(c, "y", JInt(y)).value, size);
    }
  }

  lemma SavePositionNeverRaises(c: Fields, xs: string, ys: string, size: string)
    requires WindowStorable(c)
    ensures SavePosition(c, xs, ys, size).Ok?
  {
    if ParseInt(xs).Some? {
      var x := ParseInt(xs).value;
      SetWindowOk(c, "x", JInt(x));
      SaveYNeverRaises(SetWindowSetting(c, "x", JInt(x)).value, ys, size);
    }
  }

  /** Text that does not parse is ignored: saving a geometry raises only when the window setting is not a dict. */
  lemma SaveNeverRaises(c: Fields, g: string)
    requires WindowStorable(c)
    ensures SaveGeometry(c, g).Ok?
  {
    match SplitOnce(g, '+')
    case None => SaveSizeNeverRaises(c, g);
    case Some((size, pos)) =>
      match SplitOnce(pos, '+')
      case None => SaveSizeNeverRaises(c, size);
      case Some((xs, ys)) => SavePositionNeverRaises(c, xs, ys, size);
  }

  /** When the window setting is not a dict, saving a full geometry raises. */
  lemma GeometryRaisesWhenBlocked(c: Fields, w: int, h: int, x: int, y: int)
    requires !WindowStorable(c)
    ensures SaveGeometry(c, Geometry(w, h, x, y)).Err?
  {
    var W, H, X, Y := IntToString(w), IntToString(h), IntToString(x), IntToString(y);
    IntTextChars(w); IntTextChars(h); IntTextChars(x); IntRoundTrip(x);
    var size := W + "x" + H;
    var pos := X + "+" + Y;
    assert Geometry(w, h, x, y) == size + ['+'] + pos;
    SplitOnceAt(size, pos, '+');
    SplitOnceAt(X, Y, '+');
  }
}
