/** The environment-aware bot configuration (bot/config_manager.py): a runtime
    copy of three known keys, filled from the JSON file through `_parse_value`, and
    single-key saves that write `str(value)` to the file. The file is modelled as
    the dict it holds; reading and writing it are not modelled. */
module ConfigManager {
  import opened Values

  // ---------------------------------------------------------------------------
  // _parse_value
  // ---------------------------------------------------------------------------

  /** ASCII `str.lower()`. */
  function Lower(s: string): (r: string)
    ensures |r| == |s|
    ensures forall k :: 0 <= k < |s| ==> r[k] == LowerChar(s[k])
  {
    seq(|s|, k requires 0 <= k < |s| => LowerChar(s[k]))
  }

  function LowerChar(c: char): char
  {
    if 'A' <= c <= 'Z' then (c as int + 32) as char else c
  }

  const TrueWords: seq<string> := ["true", "yes", "on"]
  const FalseWords: seq<string> := ["false", "no", "off"]

  /** `int(raw)` for a value whose `str` is all digits: an int is itself, a digit
      string is read in base ten. */
  function IntOfDigits(raw: Value): int
    requires IsDigits(Str(raw))
  {
    match raw
    case VInt(i) => i
    case VStr(s) => ParseDigits(s)
    case _ => 0
  }

  /** `_parse_value`: None and "" become None, anything whose `str` is digits
      becomes an int, a string spelling a boolean word becomes that boolean, and
      everything else becomes its `str`. */
  function ParseValue(raw: Value): (r: Value)
    ensures r.VNone? <==> raw == VNone || raw == VStr("")
    ensures r.VNone? || r.VInt? || r.VBool? || r.VStr?
    ensures raw.VStr? && r.VStr? ==> r == raw
    ensures r.VBool? ==> raw.VStr?
  {
    if raw == VNone || raw == VStr("") then VNone
    else if IsDigits(Str(raw)) then VInt(IntOfDigits(raw))
    else if raw.VStr? && Lower(raw.s) in TrueWords then VBool(true)
    else if raw.VStr? && Lower(raw.s) in FalseWords then VBool(false)
    else VStr(Str(raw))
  }

  lemma NegativeNotDigits(i: int)
    requires i < 0
    ensures !IsDigits(IntToString(i)) && IntToString(i)[0] == '-'
  {
  }

  /** The `str` of a container starts with its opening bracket. */
  lemma ContainerNotDigits(v: Value)
    requires v.VList? || v.VTuple? || v.VDict?
    ensures !IsDigits(Str(v))
    ensures Str(v)[0] in "[({"
  {
  }

  /** `_parse_value`, kind by kind: a non-negative int is kept, a negative int and a
      bool become their `str`, containers become their `str`, a digit string is read
      as an int and boolean words of any case become booleans. */
  lemma ParseValueKinds(raw: Value)
    ensures raw == VNone || raw == VStr("") ==> ParseValue(raw) == VNone
    ensures raw.VInt? && raw.i >= 0 ==> ParseValue(raw) == raw
    ensures raw.VInt? && raw.i < 0 ==> ParseValue(raw) == VStr(IntToString(raw.i))
    ensures raw.VBool? ==> ParseValue(raw) == VStr(if raw.b then "True" else "False")
    ensures raw.VList? || raw.VTuple? || raw.VDict? ==> ParseValue(raw) == VStr(Repr(raw))
    ensures raw.VStr? && IsDigits(raw.s) ==> ParseValue(raw) == VInt(ParseDigits(raw.s))
    ensures raw.VStr? && !IsDigits(raw.s) && Lower(raw.s) in TrueWords ==> ParseValue(raw) == VBool(true)
    ensures raw.VStr? && !IsDigits(raw.s) && Lower(raw.s) in FalseWords ==> ParseValue(raw) == VBool(false)
    ensures raw.VStr? && raw.s != "" && !IsDigits(raw.s) && Lower(raw.s) !in TrueWords && Lower(raw.s) !in FalseWords
      ==> ParseValue(raw) == raw
  {
    match raw
    case VInt(i) =>
      if i >= 0 {
        NatToStringRoundTrip(i);
      } else {
        NegativeNotDigits(i);
      }
    case VList(_) => ContainerNotDigits(raw);
    case VTuple(_) => ContainerNotDigits(raw);
    case VDict(_) => ContainerNotDigits(raw);
    case _ =>
  }

  /** A saved number reads back as the number: `"42"` parses to 42. */
  lemma ParseNatString(n: nat)
    ensures ParseValue(VStr(NatToString(n))) == VInt(n)
  {
    NatToStringRoundTrip(n);
  }

  /** A signed or bracketed string is none of the boolean words. */
  lemma NotAWord(s: string)
    requires s != [] && s[0] in "-[({"
    ensures Lower(s) !in TrueWords && Lower(s) !in FalseWords
  {
    assert Lower(s)[0] == s[0];
  }

  /** What `save` writes to the file, `str(value)`, parses after a reload to the same
      runtime value `save` stored in memory, for every value but a bool (None is
      popped rather than written). */
  lemma SaveReloadAgrees(v: Value)
    requires !v.VBool? && !v.VNone?
    ensures ParseValue(VStr(Str(v))) == ParseValue(v)
  {
    match v
    case VInt(i) =>
      if i >= 0 {
        NatToStringRoundTrip(i);
      } else {
        NegativeNotDigits(i);
        NotAWord(IntToString(i));
      }
    case VList(_) => ContainerNotDigits(v); NotAWord(Str(v));
    case VTuple(_) => ContainerNotDigits(v); NotAWord(Str(v));
    case VDict(_) => ContainerNotDigits(v); NotAWord(Str(v));
    case _ =>
  }

  /** A saved bool is the string "True"/"False" in memory but the bool itself after
      the file is reloaded. */
  lemma SavedBoolChangesOnReload(b: bool)
    ensures ParseValue(VBool(b)) == VStr(if b then "True" else "False")
    ensures ParseValue(VStr(Str(VBool(b)))) == VBool(b)
  {
    var s := Str(VBool(b));
    assert !IsDigit(s[0]);
    if b {
      assert Lower(s) == "true";
    } else {
      assert Lower(s) == "false";
    }
  }

  // ---------------------------------------------------------------------------
  // The manager
  // ---------------------------------------------------------------------------

  /** The three keys the runtime copy starts with. */
  const KnownKeys: seq<string> := ["voice_channel_id", "text_channel_id", "queue_message_id"]

  class ConfigManager {
    /** The runtime copy, `self.data`. */
    var data: seq<(string, Value)>
    /** The JSON object in the config file. */
    var stored: seq<(string, Value)>

    ghost predicate Valid()
      reads this
    {
      UniqueKeys(data) && UniqueKeys(stored)
    }

    /** The runtime copy holds the three known keys, all None; `file` is what the
        config file holds (an empty object when it was missing). */
    constructor (file: seq<(string, Value)>)
      requires UniqueKeys(file)
      ensures Valid()
      ensures data == [(KnownKeys[0], VNone), (KnownKeys[1], VNone), (KnownKeys[2], VNone)]
      ensures stored == file
    {
      data := [(KnownKeys[0], VNone), (KnownKeys[1], VNone), (KnownKeys[2], VNone)];
      stored := file;
    }

    /** `load`: every key already in the runtime copy is set to the parsed file
        value (None when the file lacks it); no key is added or removed. */
    method Load()
      requires Valid()
      modifies this`data
      ensures Valid()
      ensures |data| == |old(data)|
      ensures forall i :: 0 <= i < |data| ==>
        data[i].0 == old(data)[i].0 && data[i].1 == ParseValue(GetOr(stored, data[i].0, VNone))
    {
      var config := stored;
      var i := 0;
      while i < |data|
        invariant 0 <= i <= |data| == |old(data)|
        invariant UniqueKeys(data)
        invariant forall j :: 0 <= j < |data| ==> data[j].0 == old(data)[j].0
        invariant forall j :: 0 <= j < i ==> data[j].1 == ParseValue(GetOr(config, data[j].0, VNone))
        invariant forall j :: i <= j < |data| ==> data[j] == old(data)[j]
      {
        var key := data[i].0;
        var raw := GetOr(config, key, VNone);
        PutAt(data, i, ParseValue(raw));
        PutKeys(data, key, ParseValue(raw));
        data := Put(data, key, ParseValue(raw));
        i := i + 1;
      }
    }

    /** `save`: None pops the key from the file, any other value is written as its
        `str`; the runtime entry becomes the parsed value. */
    method Save(key: string, value: Value)
      requires Valid()
      modifies this`data, this`stored
      ensures Valid()
      ensures stored == if value == VNone then Remove(old(stored), key) else Put(old(stored), key, VStr(Str(value)))
      ensures data == Put(old(data), key, ParseValue(value))
      ensures Values.Get(stored, key) == if value == VNone then None else Some(VStr(Str(value)))
      ensures forall k :: k != key ==> Values.Get(stored, k) == Values.Get(old(stored), k)
      ensures Get(key, VNone) == ParseValue(value)
      ensures forall k :: k != key ==> Values.Get(data, k) == Values.Get(old(data), k)
    {
      var config := stored;
      if value == VNone {
        RemoveKeys(config, key);
        config := Remove(config, key);
      } else {
        PutKeys(config, key, VStr(Str(value)));
        config := Put(config, key, VStr(Str(value)));
      }
      stored := config;
      PutKeys(data, key, ParseValue(value));
      data := Put(data, key, ParseValue(value));
      forall k ensures Values.Get(stored, k) == (if k == key then (if value == VNone then None else Some(VStr(Str(value)))) else Values.Get(old(stored), k)) {
        if value == VNone {
          RemoveGet(old(stored), key, k);
        } else {
          PutGet(old(stored), key, VStr(Str(value)), k);
        }
      }
      forall k ensures Values.Get(data, k) == (if k == key then Some(ParseValue(value)) else Values.Get(old(data), k)) {
        PutGet(old(data), key, ParseValue(value), k);
      }
    }

    /** `get`: the runtime value, or the default for an unknown key. */
    function Get(key: string, default: Value): (r: Value)
      reads this
      ensures Values.Get(data, key).Some? ==> r == Values.Get(data, key).value
      ensures Values.Get(data, key).None? ==> r == default
    {
      GetOr(data, key, default)
    }

    /** `set` is `save`. */
    method Set(key: string, value: Value)
      requires Valid()
      modifies this`data, this`stored
      ensures Valid()
      ensures stored == if value == VNone then Remove(old(stored), key) else Put(old(stored), key, VStr(Str(value)))
      ensures data == Put(old(data), key, ParseValue(value))
    {
      Save(key, value);
    }

    /** `get_int`: the value when it is an int (Python counts a bool as one), else
        the default. */
    function GetInt(key: string, default: Value): (r: Value)
      reads this
      ensures r.VInt? || r.VBool? || r == default
      ensures r != default ==> r == Get(key, VNone)
      ensures Get(key, VNone).VInt? ==> r == Get(key, VNone)
      ensures Get(key, VNone).VBool? ==> r == Get(key, VNone)
      ensures !Get(key, VNone).VInt? && !Get(key, VNone).VBool? ==> r == default
    {
      var v := Get(key, VNone);
      if v.VInt? || v.VBool? then v else default
    }

    /** `get_bool`: the value when it is a bool, else the default. */
    function GetBool(key: string, default: Value): (r: Value)
      reads this
      ensures r.VBool? || r == default
      ensures r != default ==> r == Get(key, VNone)
      ensures Get(key, VNone).VBool? ==> r == Get(key, VNone)
    {
      var v := Get(key, VNone);
      if v.VBool? then v else default
    }
  }

  /** A fresh manager loaded from a file that saved the voice channel as "42" answers
      `get_int("voice_channel_id")` with 42, and the two unsaved keys with None. */
  method LoadScenario()
  {
    var file := [("voice_channel_id", VStr("42"))];
    var cfg := new ConfigManager(file);
    cfg.Load();
    GetFirst(file, "voice_channel_id", 0);
    ParseNatString(42);
    assert NatToString(42) == "42";
    assert cfg.data[0] == ("voice_channel_id", VInt(42));
    GetFirst(cfg.data, "voice_channel_id", 0);
    assert cfg.GetInt("voice_channel_id", VNone) == VInt(42);
  }
}
