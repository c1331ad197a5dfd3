/** The dashboard's ambience library handlers (bot/ambience.py): a validation
    branch and a whole-library replace, modelled as a function from the stored
    library and the request to the new library and the reply. */
module Ambience {
  import opened Values

  datatype Saved = Saved(store: seq<(string, Value)>, reply: Value)

  /** `send_ambience`: the stored library as it is. */
  function SendAmbience(store: seq<(string, Value)>): (r: seq<(string, Value)>)
    ensures r == store
  {
    store
  }

  /** `save_ambience(data)`: a "data" dict replaces the whole library and the reply
      is its size; anything else gets the ERROR reply and leaves the library. A
      request that is not a dict fails at `.get`. */
  function SaveAmbience(store: seq<(string, Value)>, data: Value): (r: Result<Saved>)
    ensures r.Err? <==> !data.VDict?
    ensures r.Err? ==> r.error == NoAttribute(data, "get")
    ensures r.Ok? && !GetOr(data.entries, "data", VNone).VDict? ==>
      r.value == Saved(store, ErrorReply("Invalid ambience data"))
    ensures r.Ok? && GetOr(data.entries, "data", VNone).VDict? ==>
      var library := GetOr(data.entries, "data", VNone).entries;
      r.value.store == library && r.value.reply == VInt(|library|)
  {
    if !data.VDict? then Err(NoAttribute(data, "get"))
    else
      var ambience := GetOr(data.entries, "data", VNone);
      if !ambience.VDict? then Ok(Saved(store, ErrorReply("Invalid ambience data")))
      else Ok(Saved(ambience.entries, VInt(|ambience.entries|)))
  }

  /** Saving the same request twice leaves the library as one save does, and what
      is then sent is exactly the saved library, whatever was stored before. */
  lemma SaveAmbienceIdempotent(store: seq<(string, Value)>, data: Value)
    requires SaveAmbience(store, data).Ok?
    ensures var once := SaveAmbience(store, data).value;
      && SaveAmbience(once.store, data).Ok?
      && SaveAmbience(once.store, data).value == once
      && (GetOr(data.entries, "data", VNone).VDict? ==>
            SendAmbience(once.store) == GetOr(data.entries, "data", VNone).entries)
  {
  }

  /** The library after a valid save does not depend on what was stored before. */
  lemma SaveAmbienceReplaces(store1: seq<(string, Value)>, store2: seq<(string, Value)>, library: seq<(string, Value)>)
    ensures var request := VDict([("data", VDict(library))]);
      && SaveAmbience(store1, request).Ok?
      && SaveAmbience(store1, request).value.store == library
      && SaveAmbience(store1, request).value == SaveAmbience(store2, request).value
  {
    GetFirst([("data", VDict(library))], "data", 0);
  }
}
