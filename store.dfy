/** What the two request handlers share: the records of the stats model crate, the
    user-stats table of DynamoDB, and the external calls a handler performs. */
module Store {

  newtype byte = b: int | 0 <= b < 256

  /** A rating sample of the stats model crate: `time` in seconds (u64) and `elo` (f64). */
  datatype Rating = Rating(time: nat, elo: real)

  /** The stats record of the model crate, keyed by format. */
  datatype User = User(username: string, userid: string, formats: map<string, seq<Rating>>)

  /** A DynamoDB attribute: a string, a binary blob, or a number (kept as its text). */
  datatype AttributeValue = S(s: string) | B(bytes: seq<byte>) | N(n: string)

  type Item = map<string, AttributeValue>

  /** The user-stats table, keyed by its partition key `userId`. */
  type Table = map<string, Item>

  const USER_ID_ATTRIBUTE: string := "userId"
  const STATS_ATTRIBUTE: string := "stats.json.gz"

  /** The item add-user writes: the normalised id and the gzipped stats JSON. */
  function StatsItem(id: string, compressed: seq<byte>): (item: Item)
    ensures item.Keys == {USER_ID_ATTRIBUTE, STATS_ATTRIBUTE}
    ensures item[USER_ID_ATTRIBUTE] == S(id) && item[STATS_ATTRIBUTE] == B(compressed)
  {
    map[USER_ID_ATTRIBUTE := S(id), STATS_ATTRIBUTE := B(compressed)]
  }

  /** An external call made by a handler, in the order made. */
  datatype Call = GetItem(key: string) | PutItem(key: string, item: Item) | FetchShowdown(url: string)
}
