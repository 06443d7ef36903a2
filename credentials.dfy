/**
 * The Telegram API credentials of `config.py`: each getter reads the remote `config` table
 * first, falls back to the environment, and memoises its answer in a module-level dict
 * until `clear_tg_creds_cache` empties it.
 */
module Credentials {
  import opened Common
  import PyInt
  import Database

  const ApiIdKey := "api_id"
  const ApiHashKey := "api_hash"
  const PhoneNumberKey := "phone_number"

  /**
   * `_get_supabase_config(key, default)`. `remote` is the `config` table as the fresh client
   * fetches it, or `None` when building the client or running the query raises.
   */
  function FetchConfig(remote: Option<seq<KeyValue>>, key: string, default: Value): (v: Value)
    ensures remote.None? ==> v == default
    ensures remote.Some? && (forall i :: 0 <= i < |remote.value| ==> remote.value[i].key != key) ==> v == default
    ensures remote.Some? && (exists i :: 0 <= i < |remote.value| && remote.value[i].key == key) ==>
      exists i :: 0 <= i < |remote.value| && remote.value[i] == KeyValue(key, v) &&
        forall j :: 0 <= j < i ==> remote.value[j].key != key
  {
    if remote.None? then default
    else match Database.Lookup(remote.value, key)
      case Some(v) => v
      case None => default
  }

  /** `int(val)`, with 0 where it raises `ValueError` or `TypeError`: a non-zero result is the value itself, or text that parses to it. */
  function ToInt(v: Value): (r: int)
    ensures r != 0 ==> v == Int(r) || (v.Str? && PyInt.ParseInt(v.s) == Some(r))
    ensures v.Int? ==> r == v.i
    ensures v.Str? && PyInt.ParseInt(v.s).Some? ==> r == PyInt.ParseInt(v.s).value
    ensures v.Str? && PyInt.ParseInt(v.s).None? ==> r == 0
  {
    match v
    case Int(i) => i
    case Str(s) => (match PyInt.ParseInt(s) case Some(n) => n case None => 0)
    case Null => 0
  }

  /** The value `get_api_id` caches on a miss: non-zero only as the integer, or the text of it, that the remote table or `API_ID` holds. */
  function ResolveApiId(remote: Option<seq<KeyValue>>, env: map<string, string>): (r: int)
    ensures r != 0 ==>
      var v := Or(FetchConfig(remote, "telegram_api_id", Null), Str(GetEnv(env, "API_ID", "0")));
      v == Int(r) || (v.Str? && PyInt.ParseInt(v.s) == Some(r))
    ensures
      var v := Or(FetchConfig(remote, "telegram_api_id", Null), Str(GetEnv(env, "API_ID", "0")));
      v.Str? && PyInt.ParseInt(v.s).Some? ==> r == PyInt.ParseInt(v.s).value
  {
    ToInt(Or(FetchConfig(remote, "telegram_api_id", Null), Str(GetEnv(env, "API_ID", "0"))))
  }

  /** The value `get_api_hash` caches on a miss: the remote value when truthy, else `API_HASH`, else `''`. */
  function ResolveApiHash(remote: Option<seq<KeyValue>>, env: map<string, string>): (r: Value)
    ensures Truthy(FetchConfig(remote, "telegram_api_hash", Null)) ==> r == FetchConfig(remote, "telegram_api_hash", Null)
    ensures !Truthy(FetchConfig(remote, "telegram_api_hash", Null)) ==>
      r == Str(if "API_HASH" in env then env["API_HASH"] else "")
  {
    Or(FetchConfig(remote, "telegram_api_hash", Null), Str(GetEnv(env, "API_HASH", "")))
  }

  /** The value `get_phone_number` caches on a miss: the remote value when truthy, else `PHONE_NUMBER`, else `''`. */
  function ResolvePhoneNumber(remote: Option<seq<KeyValue>>, env: map<string, string>): (r: Value)
    ensures Truthy(FetchConfig(remote, "telegram_phone", Null)) ==> r == FetchConfig(remote, "telegram_phone", Null)
    ensures !Truthy(FetchConfig(remote, "telegram_phone", Null)) ==>
      r == Str(if "PHONE_NUMBER" in env then env["PHONE_NUMBER"] else "")
  {
    Or(FetchConfig(remote, "telegram_phone", Null), Str(GetEnv(env, "PHONE_NUMBER", "")))
  }

  /** A remote API id stored as its decimal text, or as a non-zero integer, is the id. */
  lemma ApiIdFromRemote(remote: Option<seq<KeyValue>>, env: map<string, string>, n: int)
    requires FetchConfig(remote, "telegram_api_id", Null) == Str(PyInt.Show(n)) ||
             (n != 0 && FetchConfig(remote, "telegram_api_id", Null) == Int(n))
    ensures ResolveApiId(remote, env) == n
  {
    PyInt.ParseShow(n);
  }

  /**
   * With nothing truthy remotely, the decimal text of `API_ID` is the id; without `API_ID`, or
   * with text `int()` rejects (the empty string among them), it is 0.
   */
  lemma ApiIdFromEnv(remote: Option<seq<KeyValue>>, env: map<string, string>, n: int)
    requires !Truthy(FetchConfig(remote, "telegram_api_id", Null))
    ensures "API_ID" in env && env["API_ID"] == PyInt.Show(n) ==> ResolveApiId(remote, env) == n
    ensures "API_ID" !in env ==> ResolveApiId(remote, env) == 0
    ensures "API_ID" in env && PyInt.ParseInt(env["API_ID"]).None? ==> ResolveApiId(remote, env) == 0
    ensures "API_ID" in env && env["API_ID"] == "" ==> ResolveApiId(remote, env) == 0
  {
    PyInt.ParseShow(n);
    PyInt.ParseShow(0);
    assert PyInt.Show(0) == "0";
  }

  /**
   * Whatever text the id comes from, if `int()` reads it as `n` the cached id is `n`: padded,
   * signed, zero-led and `_`-grouped text such as `" +012_345 "` included.
   */
  lemma ApiIdParsed(remote: Option<seq<KeyValue>>, env: map<string, string>, s: string, n: int)
    requires Or(FetchConfig(remote, "telegram_api_id", Null), Str(GetEnv(env, "API_ID", "0"))) == Str(s)
    requires PyInt.ParseInt(s) == Some(n)
    ensures ResolveApiId(remote, env) == n
  {
  }

  /** Whatever text the id comes from, if `int()` rejects it the cached id is 0. */
  lemma ApiIdUnparsable(remote: Option<seq<KeyValue>>, env: map<string, string>, s: string)
    requires Or(FetchConfig(remote, "telegram_api_id", Null), Str(GetEnv(env, "API_ID", "0"))) == Str(s)
    requires PyInt.ParseInt(s).None?
    ensures ResolveApiId(remote, env) == 0
  {
  }

  /** In particular, text holding a letter or another character `int()` never accepts gives 0. */
  lemma ApiIdStrayCharacter(remote: Option<seq<KeyValue>>, env: map<string, string>, s: string, i: nat)
    requires Or(FetchConfig(remote, "telegram_api_id", Null), Str(GetEnv(env, "API_ID", "0"))) == Str(s)
    requires i < |s| && !PyInt.IsDigit(s[i]) && !PyInt.IsSpace(s[i]) && s[i] !in "+-_"
    ensures ResolveApiId(remote, env) == 0
  {
    PyInt.NonNumericRejected(s, i);
    ApiIdUnparsable(remote, env, s);
  }

  /** The module-level `_tg_creds_cache` dict. */
  class CredentialCache {
    var cache: map<string, Value>

    /** `get_api_id` only ever caches an integer. */
    ghost predicate Valid()
      reads this
    {
      ApiIdKey in cache ==> cache[ApiIdKey].Int?
    }

    /** The dict as the module creates it. */
    constructor ()
      ensures Valid() && cache == map[]
    {
      cache := map[];
    }

    /** `get_api_id()`: fetches only on a miss, and caches 0 when the value does not parse. */
    method GetApiId(remote: Option<seq<KeyValue>>, env: map<string, string>) returns (id: int)
      requires Valid()
      modifies this
      ensures Valid()
      ensures ApiIdKey in old(cache) ==> cache == old(cache) && old(cache)[ApiIdKey] == Int(id)
      ensures ApiIdKey !in old(cache) ==> id == ResolveApiId(remote, env) && cache == old(cache)[ApiIdKey := Int(id)]
    {
      if ApiIdKey !in cache {
        var val := Or(FetchConfig(remote, "telegram_api_id", Null), Str(GetEnv(env, "API_ID", "0")));
        cache := cache[ApiIdKey := Int(ToInt(val))];
      }
      id := cache[ApiIdKey].i;
    }

    /** `get_api_hash()`. */
    method GetApiHash(remote: Option<seq<KeyValue>>, env: map<string, string>) returns (hash: Value)
      requires Valid()
      modifies this
      ensures Valid()
      ensures ApiHashKey in old(cache) ==> cache == old(cache) && hash == old(cache)[ApiHashKey]
      ensures ApiHashKey !in old(cache) ==> hash == ResolveApiHash(remote, env) && cache == old(cache)[ApiHashKey := hash]
    {
      if ApiHashKey !in cache {
        cache := cache[ApiHashKey := ResolveApiHash(remote, env)];
      }
      hash := cache[ApiHashKey];
    }

    /** `get_phone_number()`. */
    method GetPhoneNumber(remote: Option<seq<KeyValue>>, env: map<string, string>) returns (number: Value)
      requires Valid()
      modifies this
      ensures Valid()
      ensures PhoneNumberKey in old(cache) ==> cache == old(cache) && number == old(cache)[PhoneNumberKey]
      ensures PhoneNumberKey !in old(cache) ==> number == ResolvePhoneNumber(remote, env) && cache == old(cache)[PhoneNumberKey := number]
    {
      if PhoneNumberKey !in cache {
        cache := cache[PhoneNumberKey := ResolvePhoneNumber(remote, env)];
      }
      number := cache[PhoneNumberKey];
    }

    /** `clear_tg_creds_cache()`. */
    method Clear()
      modifies this
      ensures Valid() && cache == map[]
    {
      cache := map[];
    }
  }

  /**
   * A run of the getters on a fresh cache: the first answer sticks whatever the sources say
   * later, each key is resolved on its own, and a clear makes the next call read the sources again.
   */
  method CacheLifecycle(remote1: Option<seq<KeyValue>>, env1: map<string, string>,
                        remote2: Option<seq<KeyValue>>, env2: map<string, string>)
    returns (first: int, again: int, hash: Value, afterClear: int)
    ensures first == ResolveApiId(remote1, env1)
    ensures again == first
    ensures hash == ResolveApiHash(remote2, env2)
    ensures afterClear == ResolveApiId(remote2, env2)
  {
    var creds := new CredentialCache();
    first := creds.GetApiId(remote1, env1);
    again := creds.GetApiId(remote2, env2);
    hash := creds.GetApiHash(remote2, env2);
    creds.Clear();
    afterClear := creds.GetApiId(remote2, env2);
  }
}
