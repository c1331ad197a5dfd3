/** The bot's channel configuration holder (bot/instance.py): the defaults its
    constructor leaves behind and the key-filtered merge that `save_bot_config`
    writes to the config file. The file is modelled as the dict it holds. */
module Instance {
  import opened Values

  /** The only keys a setup save may write. */
  const SetupKeys: seq<string> := ["voice_channel_id", "text_channel_id", "ngrok_message_id", "queue_message_id"]

  /** `value not in ("", None)`. */
  predicate IsProvided(v: Value)
  {
    v != VStr("") && v != VNone
  }

  /** The value `save_bot_config` writes for `key`, if it writes one. */
  function SetupValue(data: seq<(string, Value)>, key: string): Option<Value>
  {
    var v := GetOr(data, key, VNone);
    if key in SetupKeys && IsProvided(v) then Some(VStr(Str(v))) else None
  }

  class BotConfig {
    var voiceChannelId: Value
    var textChannelId: Value
    var queueMessageId: Value

    /** The trailing commas leave both channel ids as the one-element tuple `(None,)`,
        which is truthy; only the message id is None. */
    constructor ()
      ensures voiceChannelId == VTuple([VNone]) && textChannelId == VTuple([VNone])
      ensures queueMessageId == VNone
      ensures Truthy(voiceChannelId) && Truthy(textChannelId) && !Truthy(queueMessageId)
    {
      voiceChannelId := VTuple([VNone]);
      textChannelId := VTuple([VNone]);
      queueMessageId := VNone;
    }

    /** `save_bot_config(data)`: starting from the current file contents, each of the
        four setup keys whose value in `data` is neither "" nor None is written as
        its `str`; every other entry is kept. A `data` that is not a dict fails at
        its first `.get`. */
    static method SaveBotConfig(curConfig: seq<(string, Value)>, data: Value)
      returns (r: Result<seq<(string, Value)>>)
      ensures !data.VDict? ==> r == Err(NoAttribute(data, "get"))
      ensures data.VDict? ==> r.Ok?
      ensures data.VDict? ==> forall k :: (Values.Get(r.value, k) ==
        if SetupValue(data.entries, k).Some? then SetupValue(data.entries, k) else Values.Get(curConfig, k))
      ensures data.VDict? && UniqueKeys(curConfig) ==> UniqueKeys(r.value)
      ensures data.VDict? ==> KeySet(r.value) <= KeySet(curConfig) + set k | k in SetupKeys
    {
      if !data.VDict? {
        return Err(NoAttribute(data, "get"));
      }
      var updated := curConfig;
      var i := 0;
      while i < |SetupKeys|
        invariant 0 <= i <= |SetupKeys|
        invariant forall k :: (Values.Get(updated, k) ==
          if k in SetupKeys[..i] && IsProvided(GetOr(data.entries, k, VNone))
          then Some(VStr(Str(GetOr(data.entries, k, VNone))))
          else Values.Get(curConfig, k))
        invariant UniqueKeys(curConfig) ==> UniqueKeys(updated)
        invariant KeySet(updated) <= KeySet(curConfig) + set k | k in SetupKeys
      {
        var key := SetupKeys[i];
        var value := GetOr(data.entries, key, VNone);
        if IsProvided(value) {
          forall k ensures Values.Get(Put(updated, key, VStr(Str(value))), k) ==
            if k == key then Some(VStr(Str(value))) else Values.Get(updated, k)
          {
            PutGet(updated, key, VStr(Str(value)), k);
          }
          PutKeys(updated, key, VStr(Str(value)));
          updated := Put(updated, key, VStr(Str(value)));
        }
        assert SetupKeys[..i + 1] == SetupKeys[..i] + [key];
        i := i + 1;
      }
      assert SetupKeys[..i] == SetupKeys;
      return Ok(updated);
    }
  }

  /** Keys outside the four are never written, and "" or None never overwrites. */
  lemma SetupValueWrites(data: seq<(string, Value)>, key: string)
    ensures key !in SetupKeys ==> SetupValue(data, key).None?
    ensures GetOr(data, key, VNone) == VStr("") ==> SetupValue(data, key).None?
    ensures !HasKey(data, key) ==> SetupValue(data, key).None?
    ensures key in SetupKeys && HasKey(data, key) && IsProvided(GetOr(data, key, VNone)) ==>
      SetupValue(data, key) == Some(VStr(Str(GetOr(data, key, VNone))))
  {
    GetHasKey(data, key);
  }
}
