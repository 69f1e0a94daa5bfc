/** Persisted preferences and the update that runs after a name is submitted. */
module Defaults {
  import opened Wrappers
  import opened Sequences
  import opened Lexicographic
  import opened Api
  import UserStatsParser

  const USERNAME_KEY: string := "username"
  const FORMAT_KEY: string := "format"

  /** The browser's `localStorage` as seen by a read: its string entries, or unavailable
      (every access throws). */
  datatype LocalStorage = Available(entries: map<string, string>) | Unavailable

  /** `key` holds a non-empty entry that `parse` decodes. */
  predicate Readable(storage: LocalStorage, key: string, parse: string -> Option<string>) {
    storage.Available? && key in storage.entries && storage.entries[key] != "" &&
    parse(storage.entries[key]).Some?
  }

  /** `getFromStorage`: the stored value under `key`, decoded by `parse` (the model of
      `JSON.parse`, `None` when it throws), if the entry exists and is not the empty
      string; the default in every other case, including a throwing storage or parser. */
  function GetFromStorage(defaultValue: string, key: string, storage: LocalStorage,
                          parse: string -> Option<string>): (value: string)
    ensures storage.Unavailable? ==> value == defaultValue
    ensures storage.Available? && key !in storage.entries ==> value == defaultValue
    ensures storage.Available? && key in storage.entries && storage.entries[key] == "" ==>
              value == defaultValue
    ensures storage.Available? && key in storage.entries && storage.entries[key] != "" ==>
              value == (if parse(storage.entries[key]).Some? then parse(storage.entries[key]).value
                        else defaultValue)
  {
    match storage
    case Unavailable => defaultValue
    case Available(entries) =>
      if key in entries && entries[key] != "" then parse(entries[key]).GetOr(defaultValue)
      else defaultValue
  }

  /** `tryGetUsernameFromStorage`: the preference stored under "username". */
  function TryGetUsernameFromStorage(fallback: string, storage: LocalStorage,
                                     parse: string -> Option<string>): (name: string)
    ensures Readable(storage, USERNAME_KEY, parse) ==> name == parse(storage.entries[USERNAME_KEY]).value
    ensures !Readable(storage, USERNAME_KEY, parse) ==> name == fallback
  {
    GetFromStorage(fallback, USERNAME_KEY, storage, parse)
  }

  /** `tryGetFormatFromStorage`: the preference stored under "format". */
  function TryGetFormatFromStorage(fallback: string, storage: LocalStorage,
                                   parse: string -> Option<string>): (format: string)
    ensures Readable(storage, FORMAT_KEY, parse) ==> format == parse(storage.entries[FORMAT_KEY]).value
    ensures !Readable(storage, FORMAT_KEY, parse) ==> format == fallback
  {
    GetFromStorage(fallback, FORMAT_KEY, storage, parse)
  }

  /** `formatsToArray`: the format keys, each once, ascending. */
  function FormatsToArray(formats: Formats): (keys: seq<string>)
    ensures Sorted(keys) && Distinct(keys)
    ensures |keys| == |formats|
    ensures forall k :: k in keys <==> HasKey(formats, k)
  {
    UserStatsParser.SortedKeys(formats)
  }

  /** `getFormat` of the preferences: the desired format if it is a key, else the fallback
      if it is a key, else the first key in sorted order (`undefined`, here `None`, when
      there are no keys). */
  function GetFormat(formats: Formats, defaultFormat: string, fallbackFormat: string): (format: Option<string>)
    ensures HasKey(formats, defaultFormat) ==> format == Some(defaultFormat)
    ensures !HasKey(formats, defaultFormat) && HasKey(formats, fallbackFormat) ==> format == Some(fallbackFormat)
    ensures !HasKey(formats, defaultFormat) && !HasKey(formats, fallbackFormat) && |formats| > 0 ==>
              format.Some? && forall k :: HasKey(formats, k) ==> StrLe(format.value, k)
    ensures |formats| > 0 <==> format.Some?
    ensures format.Some? ==> HasKey(formats, format.value)
  {
    var formatsArray := FormatsToArray(formats);
    if defaultFormat in formatsArray then Some(defaultFormat)
    else if fallbackFormat in formatsArray then Some(fallbackFormat)
    else if |formatsArray| == 0 then None
    else
      assert forall k :: k in formatsArray ==> StrLe(formatsArray[0], k) by {
        forall k | k in formatsArray ensures StrLe(formatsArray[0], k) {
          var i :| 0 <= i < |formatsArray| && formatsArray[i] == k;
          if i == 0 { StrLeReflexive(k); }
        }
      }
      Some(formatsArray[0])
  }

  /** An observable step of `updateUserStats`: a React state setter or a storage write. */
  datatype Effect = SetUserStats(stats: UserStats) | SetFormat(format: Option<string>)
                  | SetItem(key: string, value: string)

  /** The state `updateUserStats` acts on: the two pieces of React state it sets, the
      browser's storage entries, and the log of every setter call and storage write. */
  class Session {
    var userStats: Option<UserStats>
    var format: Option<string>
    var storage: map<string, string>
    var effects: seq<Effect>

    constructor (storage: map<string, string>)
      ensures userStats == None && format == None
      ensures this.storage == storage && effects == []
    {
      userStats := None;
      format := None;
      this.storage := storage;
      effects := [];
    }

    /** `updateUserStats`: fetch (with the add-user fallback); on success set the stats,
        store the name exactly as typed, then either choose, set and store a format or,
        when there are no formats, set the format to undefined and leave its stored entry
        alone. When the fetch rejects, nothing is set or written and the error propagates.
        `stringify` stands for `JSON.stringify`. */
    method UpdateUserStats(username: string, defaultFormat: string, fallbackFormat: string,
                           onGet: HttpOutcome, onPut: HttpOutcome, stringify: string -> string)
      returns (thrown: Option<HttpError>, requests: seq<Request>)
      modifies this
      ensures requests == GetUserStats(username, onGet, onPut).requests
      ensures GetUserStats(username, onGet, onPut).result.Failure? ==>
                && thrown == Some(GetUserStats(username, onGet, onPut).result.error)
                && unchanged(this)
      ensures GetUserStats(username, onGet, onPut).result.Success? ==>
                var stats := GetUserStats(username, onGet, onPut).result.value;
                && thrown == None
                && userStats == Some(stats)
                && (|stats.formats| > 0 ==>
                      && format == GetFormat(stats.formats, defaultFormat, fallbackFormat)
                      && format.Some? && HasKey(stats.formats, format.value)
                      && storage == old(storage)[USERNAME_KEY := stringify(username)]
                                                [FORMAT_KEY := stringify(format.value)]
                      && effects == old(effects) + [SetUserStats(stats), SetItem(USERNAME_KEY, stringify(username)),
                                                    SetFormat(format), SetItem(FORMAT_KEY, stringify(format.value))])
                && (|stats.formats| == 0 ==>
                      && format == None
                      && storage == old(storage)[USERNAME_KEY := stringify(username)]
                      && effects == old(effects) + [SetUserStats(stats), SetItem(USERNAME_KEY, stringify(username)),
                                                    SetFormat(None)])
    {
      var fetched := GetUserStats(username, onGet, onPut);
      requests := fetched.requests;
      if fetched.result.Failure? {
        thrown := Some(fetched.result.error);
        return;
      }
      thrown := None;
      var stats := fetched.result.value;
      userStats := Some(stats);
      effects := effects + [SetUserStats(stats)];
      storage := storage[USERNAME_KEY := stringify(username)];
      effects := effects + [SetItem(USERNAME_KEY, stringify(username))];
      if |Keys(stats.formats)| != 0 {
        var chosen := GetFormat(stats.formats, defaultFormat, fallbackFormat);
        format := chosen;
        effects := effects + [SetFormat(chosen)];
        storage := storage[FORMAT_KEY := stringify(chosen.value)];
        effects := effects + [SetItem(FORMAT_KEY, stringify(chosen.value))];
      } else {
        format := None;
        effects := effects + [SetFormat(None)];
      }
    }
  }

  /** What `updateUserStats` stores is what the next page load reads back, provided
      `parse` undoes `stringify` and `stringify` never yields the empty string (both
      hold of `JSON.parse` and `JSON.stringify` on strings). */
  lemma PreferenceReadsBack(entries: map<string, string>, key: string, value: string, fallback: string,
                            stringify: string -> string, parse: string -> Option<string>)
    requires stringify(value) != "" && parse(stringify(value)) == Some(value)
    ensures GetFromStorage(fallback, key, Available(entries[key := stringify(value)]), parse) == value
  {
  }
}
