/** Read-only helpers that turn fetched stats into what the chart shows. */
module UserStatsParser {
  import opened Wrappers
  import opened Sequences
  import opened Lexicographic
  import opened Decimal
  import opened Api

  /** `Math.round` on a finite number: the nearest integer, halves rounded up. */
  function Round(x: real): (r: int)
    ensures r as real - 0.5 <= x < r as real + 0.5
  {
    (x + 0.5).Floor
  }

  /** `getRatingsForFormat`: the series stored under the format, or `[]` when the stats or
      the format are undefined or the format is not a key. */
  function GetRatingsForFormat(userStats: Option<UserStats>, format: Option<string>): (series: seq<Rating>)
    ensures userStats.None? || format.None? ==> series == []
    ensures userStats.Some? && format.Some? && !HasKey(userStats.value.formats, format.value) ==> series == []
    ensures userStats.Some? && format.Some? && HasKey(userStats.value.formats, format.value) ==>
              exists i :: 0 <= i < |userStats.value.formats| &&
                          userStats.value.formats[i] == (format.value, series)
  {
    if userStats.None? || format.None? || !HasKey(userStats.value.formats, format.value) then []
    else Lookup(userStats.value.formats, format.value)
  }

  /** The argument of `formatRatings`, which checks at run time that it is an array. */
  datatype RatingsArg = ArrayArg(ratings: seq<Rating>) | NonArrayArg

  /** One chart point: the sample's date as text and its rounded rating. */
  datatype DisplayRow = DisplayRow(time: string, elo: int)

  function FormatRows(ratings: seq<Rating>, formatDate: int -> string): (rows: seq<DisplayRow>)
    ensures |rows| == |ratings|
    ensures forall i :: 0 <= i < |ratings| ==>
              rows[i].elo == Round(ratings[i].elo) && rows[i].time == formatDate(ratings[i].time)
    decreases |ratings|
  {
    if ratings == [] then []
    else [DisplayRow(formatDate(ratings[0].time), Round(ratings[0].elo))] + FormatRows(ratings[1..], formatDate)
  }

  /** `formatRatings`: row `i` shows sample `i`, with its date formatted by `formatDate`
      (the `Intl.DateTimeFormat` call) and its rating rounded; a non-array gives `[]`. */
  function FormatRatings(arg: RatingsArg, formatDate: int -> string): (rows: seq<DisplayRow>)
    ensures arg.NonArrayArg? ==> rows == []
    ensures arg.ArrayArg? ==> |rows| == |arg.ratings|
    ensures arg.ArrayArg? ==> forall i :: 0 <= i < |rows| ==>
              rows[i].elo == Round(arg.ratings[i].elo) && rows[i].time == formatDate(arg.ratings[i].time)
  {
    match arg
    case NonArrayArg => []
    case ArrayArg(ratings) => FormatRows(ratings, formatDate)
  }

  const DEFAULT_RATING: string := "1000"

  /** `getLatestRating`: "1000" for an empty series, otherwise the decimal text of the
      last sample's rounded rating. */
  function GetLatestRating(ratings: seq<Rating>): (text: string)
    ensures |ratings| == 0 ==> text == DEFAULT_RATING
    ensures |ratings| > 0 ==> ParseDecimal(text) == Some(Round(ratings[|ratings| - 1].elo))
    ensures Canonical(text)
  {
    if |ratings| < 1 then DEFAULT_RATING else IntToDecimal(Round(ratings[|ratings| - 1].elo))
  }

  /** The text is the one rendering of the rounded last elo: any canonical text that reads
      back as that integer is it. */
  lemma LatestRatingDetermined(ratings: seq<Rating>, text: string)
    requires |ratings| > 0 && Canonical(text)
    requires ParseDecimal(text) == Some(Round(ratings[|ratings| - 1].elo))
    ensures GetLatestRating(ratings) == text
  {
    CanonicalUnique(GetLatestRating(ratings), text);
  }

  /** Only the last sample matters. */
  lemma LatestIgnoresEarlier(earlier: seq<Rating>, ratings: seq<Rating>)
    requires |ratings| > 0
    ensures GetLatestRating(earlier + ratings) == GetLatestRating(ratings)
  {
    assert (earlier + ratings)[|earlier + ratings| - 1] == ratings[|ratings| - 1];
  }

  lemma DecimalExamples()
    ensures IntToDecimal(1500) == "1500" && IntToDecimal(1700) == "1700"
  {
    assert NatDigits(15) == "15";
    assert NatDigits(150) == "150";
    assert NatDigits(17) == "17";
    assert NatDigits(170) == "170";
  }

  /** The three cases of the rating tests. */
  lemma LatestRatingExamples()
    ensures GetLatestRating([]) == "1000"
    ensures GetLatestRating([Rating(0, 1500.0)]) == "1500"
    ensures GetLatestRating([Rating(0, 1500.0), Rating(1, 1600.0), Rating(2, 1700.0)]) == "1700"
  {
    assert Round(1500.0) == 1500 && Round(1700.0) == 1700;
    DecimalExamples();
  }

  /** `getUserName`. */
  function GetUserName(userStats: Option<UserStats>): (name: string)
    ensures userStats.None? ==> name == ""
    ensures userStats.Some? ==> name == userStats.value.username
  {
    if userStats.None? then "" else userStats.value.username
  }

  /** `getFormat` of the parser: undefined shown as the empty string. */
  function GetFormat(format: Option<string>): (text: string)
    ensures format.None? ==> text == ""
    ensures format.Some? ==> text == format.value
  {
    format.GetOr("")
  }

  /** `Object.keys(formats).sort(...)`: every key exactly once, ascending. */
  function SortedKeys(formats: Formats): (keys: seq<string>)
    ensures Sorted(keys) && Distinct(keys)
    ensures |keys| == |formats|
    ensures forall k :: k in keys <==> HasKey(formats, k)
  {
    var keys := SortStrings(Keys(formats));
    PermutationKeepsDistinct(Keys(formats), keys);
    keys
  }

  /** `getFormats`: `[]` for undefined stats, otherwise the sorted keys. */
  function GetFormats(userStats: Option<UserStats>): (keys: seq<string>)
    ensures userStats.None? ==> keys == []
    ensures userStats.Some? ==>
      && Sorted(keys) && Distinct(keys)
      && |keys| == |userStats.value.formats|
      && forall k :: k in keys <==> HasKey(userStats.value.formats, k)
  {
    if userStats.None? then [] else SortedKeys(userStats.value.formats)
  }

  /** Any sorted list of exactly the keys, each once, is what `getFormats` returns. */
  lemma GetFormatsUnique(userStats: UserStats, keys: seq<string>)
    requires Sorted(keys)
    requires multiset(keys) == multiset(Keys(userStats.formats))
    ensures GetFormats(Some(userStats)) == keys
  {
    var sorted := SortStrings(Keys(userStats.formats));
    PermutationKeepsDistinct(Keys(userStats.formats), sorted);
    SortedUnique(sorted, keys);
  }
}
