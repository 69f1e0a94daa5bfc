/** The page's start-up choices and the values it derives for the chart. */
module App {
  import opened Wrappers
  import opened Sequences
  import opened Lexicographic
  import opened Api
  import opened Defaults
  import UserStatsParser

  const FALLBACK_DEFAULT_USERNAME: string := "MichaelderBeste2"
  const FIRST_CHOICE_FORMAT: string := "gen9randombattle"

  /** `defaultUsername`: the stored name (decoded by `parse`) or the fallback. The
      component repeats the storage read inline; it agrees with `tryGetUsernameFromStorage`. */
  function DefaultUsername(fallback: string, storage: LocalStorage, parse: string -> Option<string>): (name: string)
    ensures Readable(storage, USERNAME_KEY, parse) ==> name == parse(storage.entries[USERNAME_KEY]).value
    ensures !Readable(storage, USERNAME_KEY, parse) ==> name == fallback
    ensures name == TryGetUsernameFromStorage(fallback, storage, parse)
  {
    if storage.Unavailable? then fallback
    else if "username" in storage.entries && storage.entries["username"] != "" then
      match parse(storage.entries["username"])
      case Some(decoded) => decoded
      case None => fallback
    else fallback
  }

  /** `fallbackDefaultFormat`: "" without formats, the first choice when it is a key,
      otherwise the first key in insertion order (not the least one). */
  function FallbackDefaultFormat(userStats: UserStats, firstChoice: string): (format: string)
    ensures |userStats.formats| == 0 ==> format == ""
    ensures HasKey(userStats.formats, firstChoice) ==> format == firstChoice
    ensures |userStats.formats| > 0 && !HasKey(userStats.formats, firstChoice) ==>
              format == userStats.formats[0].0
    ensures |userStats.formats| > 0 ==> HasKey(userStats.formats, format)
  {
    var keys := Keys(userStats.formats);
    if |keys| == 0 then ""
    else if firstChoice in keys then firstChoice
    else keys[0]
  }

  /** `defaultFormat`: the stored format whenever one can be read, whether or not it is a
      key of the fetched stats; the fallback only otherwise. */
  function DefaultFormat(fallback: string, storage: LocalStorage, parse: string -> Option<string>): (format: string)
    ensures Readable(storage, FORMAT_KEY, parse) ==> format == parse(storage.entries[FORMAT_KEY]).value
    ensures !Readable(storage, FORMAT_KEY, parse) ==> format == fallback
    ensures format == TryGetFormatFromStorage(fallback, storage, parse)
  {
    if storage.Unavailable? then fallback
    else if "format" in storage.entries && storage.entries["format"] != "" then
      match parse(storage.entries["format"])
      case Some(decoded) => decoded
      case None => fallback
    else fallback
  }

  /** The chart's series (App.tsx line 76): empty unless both the stats and the format are
      defined and the format is a key. */
  function ChartRatings(userStats: Option<UserStats>, format: Option<string>): (series: seq<Rating>)
    ensures !(userStats.Some? && format.Some? && HasKey(userStats.value.formats, format.value)) ==>
              series == []
    ensures userStats.Some? && format.Some? && HasKey(userStats.value.formats, format.value) ==>
              series == Lookup(userStats.value.formats, format.value)
  {
    if userStats.None? || format.None? then [] else UserStatsParser.GetRatingsForFormat(userStats, format)
  }

  /** The format list offered to the user (App.tsx lines 79-81): the keys, sorted. */
  function FormatList(userStats: Option<UserStats>): (keys: seq<string>)
    ensures userStats.None? ==> keys == []
    ensures userStats.Some? ==> Sorted(keys) && Distinct(keys) && |keys| == |userStats.value.formats|
    ensures userStats.Some? ==> forall k :: k in keys <==> HasKey(userStats.value.formats, k)
  {
    UserStatsParser.GetFormats(userStats)
  }

  /** The two format chains disagree: with formats inserted as "gen9ou" then "gen8ou" and
      neither preference present, the start-up chain picks the first inserted key while
      `getFormat` of the preferences picks the least one. */
  lemma FormatChainsDiffer(ratings: seq<Rating>)
    ensures var formats: Formats := [("gen9ou", ratings), ("gen8ou", ratings)];
      && FallbackDefaultFormat(UserStats("A", "a", formats), FIRST_CHOICE_FORMAT) == "gen9ou"
      && Defaults.GetFormat(formats, FIRST_CHOICE_FORMAT, FIRST_CHOICE_FORMAT) == Some("gen8ou")
  {
    var formats: Formats := [("gen9ou", ratings), ("gen8ou", ratings)];
    assert Keys(formats) == ["gen9ou", "gen8ou"];
    assert !StrLe("gen9ou", "gen8ou") by {
      assert "gen9ou"[1..] == "en9ou" && "gen8ou"[1..] == "en8ou";
      assert "en9ou"[1..] == "n9ou" && "en8ou"[1..] == "n8ou";
      assert "n9ou"[1..] == "9ou" && "n8ou"[1..] == "8ou";
    }
  }

  /** Two names submitted through `updateUserStats`, called as the username form does
      (current format as the desired one, "gen9randombattle" as the fallback): a user whose
      stats have no formats leaves the previous user's stored format in place, and the next
      page load (the start-up effect of the page) shows that format even though it names no
      series, so the chart is empty. The form the page renders itself stores the selected
      format on every submit instead; that form is not modelled. */
  method StaleFormatAfterReload(parse: string -> Option<string>, stringify: string -> string,
                                series: seq<Rating>)
    returns (shown: string, chart: seq<Rating>)
    requires stringify("Bob") != "" && parse(stringify("Bob")) == Some("Bob")
    requires stringify("gen9ou") != "" && parse(stringify("gen9ou")) == Some("gen9ou")
    ensures shown == "gen9ou" && chart == []
  {
    var session := new Session(map[]);
    var first := UserStats("Alice", "alice", [("gen9ou", series)]);
    var second := UserStats("Bob", "bob", []);
    assert Keys(first.formats) == ["gen9ou"];
    assert GetUserStats("Alice", Response(200, first), Thrown(HttpError(None))).result == Success(first);
    assert Defaults.GetFormat(first.formats, "", FIRST_CHOICE_FORMAT) == Some("gen9ou");
    var _, _ := session.UpdateUserStats("Alice", "", FIRST_CHOICE_FORMAT,
                                        Response(200, first), Thrown(HttpError(None)), stringify);
    assert session.storage[FORMAT_KEY] == stringify("gen9ou");
    assert GetUserStats("Bob", Response(200, second), Thrown(HttpError(None))).result == Success(second);
    var _, _ := session.UpdateUserStats("Bob", "gen9ou", FIRST_CHOICE_FORMAT,
                                        Response(200, second), Thrown(HttpError(None)), stringify);
    assert session.storage[FORMAT_KEY] == stringify("gen9ou");
    assert session.storage[USERNAME_KEY] == stringify("Bob");
    assert session.format == None;
    var storage := Available(session.storage);
    assert DefaultUsername(FALLBACK_DEFAULT_USERNAME, storage, parse) == "Bob";
    assert FallbackDefaultFormat(second, FIRST_CHOICE_FORMAT) == "";
    shown := DefaultFormat(FallbackDefaultFormat(second, FIRST_CHOICE_FORMAT), storage, parse);
    assert !HasKey(second.formats, shown);
    chart := ChartRatings(Some(second), Some(shown));
  }
}
