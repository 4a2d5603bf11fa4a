/**
 * The application's settings object (`AppConfig` in `wsapp_gui/config.py`):
 * the JSON document it holds and the methods that read and update it in
 * place. Each method is proved against the functions of `ConfigSpec`.
 */
module AppConfigs {
  import opened Wrappers
  import opened Text
  import opened ConfigSpec

  class AppConfig {
    /** The settings document. */
    var config: Fields

    /**
     * `__init__` and `load_config`: the document read from the file, or an
     * empty one when the file is missing or unreadable, with the defaults
     * merged in.
     */
    constructor(loaded: Option<Fields>)
      ensures config == MergeDefaults(loaded.GetOr(Empty), DefaultSettings)
    {
      config := MergeDefaults(loaded.GetOr(Empty), DefaultSettings);
    }

    /** `get`: follows the dotted key down the document; `default` when a step is missing or not a dict. */
    method Get(key: string, default: Json) returns (value: Json)
      ensures value == Lookup(JObj(config), Split(key, '.')).GetOr(default)
    {
      var keys := Split(key, '.');
      var cur := JObj(config);
      var i := 0;
      while i < |keys|
        invariant 0 <= i <= |keys|
        invariant Lookup(JObj(config), keys) == Lookup(cur, keys[i..])
      {
        LookupCons(cur, keys[i..]);
        assert keys[i..][1..] == keys[i + 1..];
        if cur.JObj? && Find(cur.fields, keys[i]).Some? {
          cur := Find(cur.fields, keys[i]).value;
        } else {
          return default;
        }
        i := i + 1;
      }
      assert keys[i..] == [];
      value := cur;
    }

    /**
     * `set`: stores `value` under the dotted key, creating the missing dicts on
     * the way; raises, changing nothing, when the way passes through a value
     * that is not a dict.
     */
    method Set(key: string, value: Json) returns (r: Result<()>)
      modifies this
      ensures Outcome(old(config), config, r, Assign(old(config), Split(key, '.'), value))
    {
      match Assign(config, Split(key, '.'), value)
      case Ok(c) =>
        config := c;
        r := Ok(());
      case Err(e) =>
        r := Err(e);
    }

    /** `get("window.<name>", default)`. */
    method GetWindow(name: string, default: Json) returns (value: Json)
      requires '.' !in name
      ensures value == WindowSetting(config, name, default)
    {
      WindowKey(name);
      value := Get("window." + name, default);
    }

    /** `set("window.<name>", value)`. */
    method SetWindow(name: string, value: Json) returns (r: Result<()>)
      requires '.' !in name
      modifies this
      ensures Outcome(old(config), config, r, SetWindowSetting(old(config), name, value))
    {
      WindowKey(name);
      r := Set("window." + name, value);
    }

    /** `get_window_geometry`. */
    method GetWindowGeometry() returns (g: string)
      ensures g == WindowGeometry(config)
    {
      var width := GetWindow("width", JInt(1200));
      var height := GetWindow("height", JInt(800));
      var x := GetWindow("x", JNull);
      var y := GetWindow("y", JNull);
      g := Show(width) + ['x'] + Show(height);
      if x != JNull && y != JNull {
        g := g + ['+'] + (Show(x) + ['+'] + Show(y));
      }
    }

    /** `save_window_geometry`: the position when there are two '+', then the size. */
    method SaveWindowGeometry(geometry: string) returns (r: Result<()>)
      modifies this
      ensures Outcome(old(config), config, r, SaveGeometry(old(config), geometry))
    {
      match SplitOnce(geometry, '+')
      case None =>
        r := SaveSizePart(geometry);
      case Some((size, pos)) =>
        match SplitOnce(pos, '+')
        case None =>
          r := SaveSizePart(size);
        case Some((xs, ys)) =>
          r := SavePositionPart(xs, ys, size);
    }

    method SavePositionPart(xs: string, ys: string, size: string) returns (r: Result<()>)
      modifies this
      ensures Outcome(old(config), config, r, SavePosition(old(config), xs, ys, size))
    {
      var x := ParseInt(xs);
      if x.None? {
        return Ok(());
      }
      ghost var a := SetWindowSetting(config, "x", JInt(x.value));
      assert SavePosition(config, xs, ys, size) == if a.Ok? then SaveY(a.value, ys, size) else Err(a.error);
      r := SetWindow("x", JInt(x.value));
      if r.Ok? {
        SetWindowOk(old(config), "x", JInt(x.value));
        SaveYNeverRaises(config, ys, size);
        r := SaveYPart(ys, size);
      }
    }

    /** Once the window is a dict, storing y cannot raise. */
    method SaveYPart(ys: string, size: string) returns (r: Result<()>)
      requires WindowStorable(config)
      modifies this
      ensures Outcome(old(config), config, r, SaveY(old(config), ys, size))
    {
      var y := ParseInt(ys);
      if y.None? {
        return Ok(());
      }
      SetWindowOk(config, "y", JInt(y.value));
      ghost var a := SetWindowSetting(config, "y", JInt(y.value));
      assert SaveY(config, ys, size) == SaveSize(a.value, size);
      r := SetWindow("y", JInt(y.value));
      SetWindowOk(old(config), "y", JInt(y.value));
      SaveSizeNeverRaises(config, size);
      r := SaveSizePart(size);
    }

    method SaveSizePart(size: string) returns (r: Result<()>)
      modifies this
      ensures Outcome(old(config), config, r, SaveSize(old(config), size))
    {
      if 'x' !in size {
        return Ok(());
      }
      var pieces := Split(size, 'x');
      if |pieces| != 2 {
        return Ok(());
      }
      r := SaveDimsPart(pieces[0], pieces[1]);
    }

    method SaveDimsPart(ws: string, hs: string) returns (r: Result<()>)
      modifies this
      ensures Outcome(old(config), config, r, SaveDims(old(config), ws, hs))
    {
      var w := ParseInt(ws);
      if w.None? {
        return Ok(());
      }
      ghost var a := SetWindowSetting(config, "width", JInt(w.value));
      assert SaveDims(config, ws, hs) == if a.Ok? then SaveHeight(a.value, hs) else Err(a.error);
      r := SetWindow("width", JInt(w.value));
      if r.Ok? {
        SetWindowOk(old(config), "width", JInt(w.value));
        SaveHeightNeverRaises(config, hs);
        r := SaveHeightPart(hs);
      }
    }

    /** Once the window is a dict, storing the height cannot raise. */
    method SaveHeightPart(hs: string) returns (r: Result<()>)
      requires WindowStorable(config)
      modifies this
      ensures Outcome(old(config), config, r, SaveHeight(old(config), hs))
    {
      var h := ParseInt(hs);
      if h.None? {
        return Ok(());
      }
      SetWindowOk(config, "height", JInt(h.value));
      r := SetWindow("height", JInt(h.value));
    }
  }
}
