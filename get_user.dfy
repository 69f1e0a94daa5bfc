/** The get-user request handler: validates the JSON request body and returns the stored
    stats JSON of the named user. */
module GetUser {
  import opened Wrappers
  import opened UserId
  import opened Store

  /** The body of the incoming request. */
  datatype RequestBody = Text(text: string) | Binary(bytes: seq<byte>) | Empty

  /** `extract_body`: the text of a text body; an error naming the kind otherwise. */
  function ExtractBody(body: RequestBody): (r: Result<string, string>)
    ensures r.Success? <==> body.Text?
    ensures body.Text? ==> r.value == body.text
    ensures body.Binary? ==> r == Failure("Request body is binary")
    ensures body.Empty? ==> r == Failure("Request body is empty")
  {
    match body
    case Text(text) => Success(text)
    case Binary(_) => Failure("Request body is binary")
    case Empty => Failure("Request body is empty")
  }

  /** The `username` entry of the parsed request JSON (absent also when the JSON is not
      an object). */
  datatype UsernameField = Missing | NotAString | Str(value: string)

  /** The results of everything the handler calls out to: serde_json on the body, the
      environment, DynamoDB and the gzip decoder (`read_to_string`). */
  datatype Env = Env(
    parseJson: string -> Option<UsernameField>,
    tableName: Option<string>,
    getItemFails: bool,
    decompress: seq<byte> -> Option<string>)

  /** The response bodies, one per message the handler can send. */
  datatype Body =
    | BodyNotText         // "Failed to extract body from user request"
    | InvalidJson         // "Failed to parse JSON body of user request"
    | UsernameNotString   // "Key 'username' is not a string"
    | UsernameMissing     // "Key 'username' is missing"
    | TableNameMissing    // "Failed to get USER_STATS_TABLE from environment"
    | UserDoesNotExist    // "User does not exist, please add it"
    | NoSuchItem          // "error getting user from database"
    | NoData              // "User found but no data"
    | UnreadableData      // "User found by data in unreadable format"
    | DecompressError     // "Error decompressing Gzipped JSON"
    | Stats(json: string) // the stored stats JSON, decompressed

  datatype Response = Response(status: int, body: Body)

  /** A handled request: the response and the external calls made. */
  datatype Handled = Handled(response: Response, calls: seq<Call>)

  /** The request names a user: a text body that parses and whose `username` is a string. */
  predicate ValidRequest(body: RequestBody, env: Env) {
    body.Text? && env.parseJson(body.text).Some? && env.parseJson(body.text).value.Str?
  }

  function RequestedName(body: RequestBody, env: Env): string
    requires ValidRequest(body, env)
  {
    env.parseJson(body.text).value.value
  }

  /** The lookup under the normalised name succeeded and found an item. */
  predicate Found(body: RequestBody, table: Table, env: Env) {
    ValidRequest(body, env) && env.tableName.Some? && !env.getItemFails && ToId(RequestedName(body, env)) in table
  }

  /** `function_handler` of get-user. */
  function HandleGetUser(body: RequestBody, table: Table, env: Env): (r: Handled)
    // Validation failures: 400 with their own message, before any database access.
    ensures r.response.status == 400 <==> !ValidRequest(body, env)
    ensures !ValidRequest(body, env) ==> r.calls == []
    ensures !body.Text? ==> r.response.body == BodyNotText
    ensures body.Text? && env.parseJson(body.text).None? ==> r.response.body == InvalidJson
    ensures body.Text? && env.parseJson(body.text) == Some(Missing) ==> r.response.body == UsernameMissing
    ensures body.Text? && env.parseJson(body.text) == Some(NotAString) ==> r.response.body == UsernameNotString
    // The only call is one lookup under the normalised name.
    ensures r.calls != [] ==> ValidRequest(body, env) && r.calls == [GetItem(ToId(RequestedName(body, env)))]
    ensures ValidRequest(body, env) && env.tableName.Some? ==> r.calls == [GetItem(ToId(RequestedName(body, env)))]
    ensures ValidRequest(body, env) && env.tableName.None? ==>
              r.response == Response(500, TableNameMissing) && r.calls == []
    // A failed lookup is reported with status 200.
    ensures ValidRequest(body, env) && env.tableName.Some? && env.getItemFails ==>
              r.response == Response(200, UserDoesNotExist)
    ensures (ValidRequest(body, env) && env.tableName.Some? && !env.getItemFails &&
             ToId(RequestedName(body, env)) !in table) ==> r.response == Response(500, NoSuchItem)
    // An item without a readable, decompressible stats blob.
    ensures Found(body, table, env) && STATS_ATTRIBUTE !in table[ToId(RequestedName(body, env))] ==>
              r.response == Response(500, NoData)
    ensures (Found(body, table, env) && STATS_ATTRIBUTE in table[ToId(RequestedName(body, env))] &&
             !table[ToId(RequestedName(body, env))][STATS_ATTRIBUTE].B?) ==>
              r.response == Response(500, UnreadableData)
    ensures (Found(body, table, env) && STATS_ATTRIBUTE in table[ToId(RequestedName(body, env))] &&
             table[ToId(RequestedName(body, env))][STATS_ATTRIBUTE].B? &&
             env.decompress(table[ToId(RequestedName(body, env))][STATS_ATTRIBUTE].bytes).None?) ==>
              r.response == Response(500, DecompressError)
    // Success returns exactly the decompressed stored JSON.
    ensures r.response.body.Stats? <==>
              && ValidRequest(body, env) && env.tableName.Some? && !env.getItemFails
              && ToId(RequestedName(body, env)) in table
              && STATS_ATTRIBUTE in table[ToId(RequestedName(body, env))]
              && table[ToId(RequestedName(body, env))][STATS_ATTRIBUTE].B?
              && env.decompress(table[ToId(RequestedName(body, env))][STATS_ATTRIBUTE].bytes).Some?
    ensures r.response.body.Stats? ==>
              && r.response.status == 200
              && Some(r.response.body.json) ==
                 env.decompress(table[ToId(RequestedName(body, env))][STATS_ATTRIBUTE].bytes)
    ensures r.response.status in {200, 400, 500}
  {
    match ExtractBody(body)
    case Failure(_) => Handled(Response(400, BodyNotText), [])
    case Success(eventBody) =>
      match env.parseJson(eventBody)
      case None => Handled(Response(400, InvalidJson), [])
      case Some(Missing) => Handled(Response(400, UsernameMissing), [])
      case Some(NotAString) => Handled(Response(400, UsernameNotString), [])
      case Some(Str(username)) =>
        var id := ToId(username);
        if env.tableName.None? then Handled(Response(500, TableNameMissing), [])
        else
          var calls := [GetItem(id)];
          if env.getItemFails then Handled(Response(200, UserDoesNotExist), calls)
          else if id !in table then Handled(Response(500, NoSuchItem), calls)
          else
            var item := table[id];
            if STATS_ATTRIBUTE !in item then Handled(Response(500, NoData), calls)
            else if !item[STATS_ATTRIBUTE].B? then Handled(Response(500, UnreadableData), calls)
            else
              match env.decompress(item[STATS_ATTRIBUTE].bytes)
              case None => Handled(Response(500, DecompressError), calls)
              case Some(statsJson) => Handled(Response(200, Stats(statsJson)), calls)
  }

  /** A record stored by add-user under `id` is what get-user returns for any name
      normalising to `id`, provided decompression undoes the compression. */
  lemma ReadsBackAddedUser(table: Table, id: string, compressed: seq<byte>, json: string,
                           body: RequestBody, env: Env)
    requires ValidRequest(body, env) && ToId(RequestedName(body, env)) == id
    requires env.tableName.Some? && !env.getItemFails
    requires env.decompress(compressed) == Some(json)
    ensures HandleGetUser(body, table[id := StatsItem(id, compressed)], env).response == Response(200, Stats(json))
  {
  }
}
