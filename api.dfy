/** The front end's view of the tracking service: the rating types and the
    fetch-else-add client (`getUserStats`, `addUser`). */
module Api {
  import opened Wrappers
  import opened Sequences

  /** One timestamped rating sample; `time` is in seconds since the epoch. */
  datatype Rating = Rating(time: int, elo: real)

  /** The format keys of an association list, in insertion order. */
  function KeysOf(entries: seq<(string, seq<Rating>)>): (keys: seq<string>)
    ensures |keys| == |entries|
    ensures forall i :: 0 <= i < |entries| ==> keys[i] == entries[i].0
  {
    if entries == [] then [] else [entries[0].0] + KeysOf(entries[1..])
  }

  /** A JavaScript object from format name to that format's rating series: its keys are
      unique and `Object.keys` lists them in insertion order. */
  type Formats = entries: seq<(string, seq<Rating>)> | Distinct(KeysOf(entries))

  /** `Object.keys(formats)`. */
  function Keys(formats: Formats): seq<string> {
    KeysOf(formats)
  }

  /** `format in formats`, for the object's own keys. */
  predicate HasKey(formats: Formats, format: string) {
    format in Keys(formats)
  }

  /** `formats[format]` for a key of `formats`. */
  function Lookup(formats: Formats, format: string): (series: seq<Rating>)
    requires HasKey(formats, format)
    ensures exists i :: 0 <= i < |formats| && formats[i] == (format, series)
    decreases |formats|
  {
    if formats[0].0 == format then formats[0].1
    else
      assert Distinct(KeysOf(formats[1..])) by {
        var ks, ks' := KeysOf(formats), KeysOf(formats[1..]);
        forall i, j | 0 <= i < j < |ks'| ensures ks'[i] != ks'[j] {
          assert ks'[i] == ks[i + 1] && ks'[j] == ks[j + 1];
        }
      }
      assert format in Keys(formats[1..]) by {
        var k :| 0 <= k < |formats| && formats[k].0 == format;
        assert formats[1..][k - 1].0 == format;
      }
      var series := Lookup(formats[1..], format);
      var i :| 0 <= i < |formats[1..]| && formats[1..][i] == (format, series);
      assert formats[i + 1] == (format, series);
      series
  }

  datatype UserStats = UserStats(username: string, userid: string, formats: Formats)

  const API_BASE_URL: string := "https://pokemonshowdownuserstats.com"

  /** Both requests address `/user-stats/` followed by the name exactly as typed. */
  function UserStatsUri(username: string): string {
    API_BASE_URL + "/user-stats/" + username
  }

  lemma UserStatsUriInjective(a: string, b: string)
    requires UserStatsUri(a) == UserStatsUri(b)
    ensures a == b
  {
    var n := |API_BASE_URL + "/user-stats/"|;
    assert a == UserStatsUri(a)[n..];
    assert b == UserStatsUri(b)[n..];
  }

  /** What axios reports when a request throws; `status` is `error.response?.status`. */
  datatype HttpError = HttpError(status: Option<int>)

  /** The outcome of one axios call as seen by the client: a response, or a thrown error. */
  datatype HttpOutcome = Response(status: int, data: UserStats) | Thrown(error: HttpError)

  datatype Request = Get(uri: string) | Put(uri: string)

  /** The value a client call resolves to (or the error it rejects with), and the
      requests it issued, in order. */
  datatype Fetched = Fetched(result: Result<UserStats, HttpError>, requests: seq<Request>)

  /** `addUser`: one PUT; its response data on success, the same error rethrown on failure. */
  function AddUser(username: string, onPut: HttpOutcome): (r: Fetched)
    ensures r.requests == [Put(UserStatsUri(username))]
    ensures onPut.Response? ==> r.result == Success(onPut.data)
    ensures onPut.Thrown? ==> r.result == Failure(onPut.error)
  {
    match onPut
    case Response(_, data) => Fetched(Success(data), [Put(UserStatsUri(username))])
    case Thrown(error) => Fetched(Failure(error), [Put(UserStatsUri(username))])
  }

  /** `getUserStats`: a GET whose 200 response is returned as is; any thrown error or
      other status falls back to `addUser` with the same name. */
  function GetUserStats(username: string, onGet: HttpOutcome, onPut: HttpOutcome): (r: Fetched)
    ensures |r.requests| >= 1 && r.requests[0] == Get(UserStatsUri(username))
    ensures onGet.Response? && onGet.status == 200 ==>
              r.result == Success(onGet.data) && r.requests == [Get(UserStatsUri(username))]
    ensures !(onGet.Response? && onGet.status == 200) ==>
              r.requests == [Get(UserStatsUri(username)), Put(UserStatsUri(username))] &&
              r.result == AddUser(username, onPut).result
  {
    var get := Get(UserStatsUri(username));
    if onGet.Response? && onGet.status == 200 then
      Fetched(Success(onGet.data), [get])
    else
      var added := AddUser(username, onPut);
      Fetched(added.result, [get] + added.requests)
  }
}
