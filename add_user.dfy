/** The add-user request handler: looks the name up on Pokémon Showdown and stores a
    first sample of each of its ratings, unless the user is already tracked. */
module AddUser {
  import opened Wrappers
  import opened UserId
  import opened Store

  /** The Pokémon Showdown profile request: no connection, or a status and the body text
      (`None` when reading the body fails). */
  datatype ShowdownReply = Unreachable | Replied(status: int, text: Option<string>)

  /** What the handler reads from the parsed profile JSON: `username` and `userid` when
      they are strings, `ratings` when it is an object, and for each of its formats the
      `elo` when it is a number. */
  datatype ShowdownDoc = ShowdownDoc(username: Option<string>, userid: Option<string>,
                                     ratings: Option<map<string, Option<real>>>)

  /** The results of everything the handler calls out to: the environment, DynamoDB,
      Pokémon Showdown, serde_json, the clock and the gzip encoder. */
  datatype Env = Env(
    tableName: Option<string>,
    getItemFails: bool,
    showdown: ShowdownReply,
    parseJson: string -> Option<ShowdownDoc>,
    now: nat,
    serialize: User -> Option<string>,
    compress: string -> Option<seq<byte>>,
    putItemFails: bool)

  /** The response bodies, one per message the handler can send. */
  datatype Body =
    | KeyMissing                       // "Key 'username' is missing"
    | TableNameMissing                 // "Failed to get USER_STATS_TABLE from environment"
    | DatabaseError                    // "error calling ddb"
    | AlreadyAdded                     // "User has already been added"
    | ShowdownUnreachable(id: string)  // "id: {id} Unable to connect to PokemonShowdown"
    | NotRegistered                    // "User not registered on Pokemon Showdown"
    | ShowdownStatus(status: int, username: string, id: string)
    | ParseError                       // "Error parsing pokemonshowdown response"
    | UsernameFieldError               // "... response username"
    | UseridFieldError                 // "... response userid"
    | EloError                         // "... response elo"
    | CompressError                    // "Error compressing json"
    | StoreError                       // "Error adding new user to datastore: ..."
    | Added(username: string, id: string, userJson: string)

  datatype Response = Response(status: int, body: Body)

  /** The profile URL of an id (add-user line 91). */
  function ShowdownUrl(id: string): string {
    "https://pokemonshowdown.com/users/" + id + ".json"
  }

  /** Different ids ask Pokémon Showdown for different profiles. */
  lemma ShowdownUrlInjective(a: string, b: string)
    requires ShowdownUrl(a) == ShowdownUrl(b)
    ensures a == b
  {
    var n := |"https://pokemonshowdown.com/users/"|;
    assert a == ShowdownUrl(a)[n..|ShowdownUrl(a)| - 5];
    assert b == ShowdownUrl(b)[n..|ShowdownUrl(b)| - 5];
  }

  /** `user` is the record built from the profile at time `now`: the profile's names and,
      for every rated format and no other, one sample with that time and its elo. */
  predicate IsNewUser(user: User, doc: ShowdownDoc, now: nat) {
    && doc.username.Some? && user.username == doc.username.value
    && doc.userid.Some? && user.userid == doc.userid.value
    && doc.ratings.Some? && user.formats.Keys == doc.ratings.value.Keys
    && forall f :: f in user.formats ==>
         doc.ratings.value[f].Some? && user.formats[f] == [Rating(now, doc.ratings.value[f].value)]
  }

  /** The profile has every field the handler reads, and every format has a numeric elo. */
  predicate CompleteProfile(doc: ShowdownDoc) {
    && doc.username.Some? && doc.userid.Some? && doc.ratings.Some?
    && forall f :: f in doc.ratings.value ==> doc.ratings.value[f].Some?
  }

  /** The record add-user builds from a complete profile at time `now`. */
  function NewUser(doc: ShowdownDoc, now: nat): User
    requires CompleteProfile(doc)
  {
    User(doc.username.value, doc.userid.value,
         map f | f in doc.ratings.value :: [Rating(now, doc.ratings.value[f].value)])
  }

  /** A profile determines its new record: `NewUser` is one, and the only one. */
  lemma NewUserUnique(doc: ShowdownDoc, now: nat, user: User)
    ensures IsNewUser(user, doc, now) ==> CompleteProfile(doc) && user == NewUser(doc, now)
    ensures CompleteProfile(doc) ==> IsNewUser(NewUser(doc, now), doc, now)
  {
    if IsNewUser(user, doc, now) {
      assert CompleteProfile(doc) by {
        forall f | f in doc.ratings.value ensures doc.ratings.value[f].Some? {
          assert f in user.formats;
        }
      }
      assert user.formats == NewUser(doc, now).formats;
    }
  }

  /** The user is not tracked yet and the lookup that shows it succeeded. */
  predicate Looked(username: Option<string>, table: Table, env: Env) {
    username.Some? && env.tableName.Some? && !env.getItemFails && ToId(username.value) !in table
  }

  /** The profile parsed from a 200 reply whose body could be read. */
  function Profile(env: Env): Option<ShowdownDoc> {
    match env.showdown
    case Replied(200, Some(text)) => env.parseJson(text)
    case _ => None
  }

  /** The loop over `ratings` (add-user lines 174-193): one single-sample series per
      format, or `None` as soon as a format has no numeric elo. */
  method BuildFormats(ratings: map<string, Option<real>>, now: nat)
    returns (formats: Option<map<string, seq<Rating>>>)
    ensures formats.None? <==> exists f :: f in ratings && ratings[f].None?
    ensures formats.Some? ==> formats.value.Keys == ratings.Keys
    ensures formats.Some? ==> forall f :: f in formats.value ==>
              ratings[f].Some? && formats.value[f] == [Rating(now, ratings[f].value)]
  {
    var acc: map<string, seq<Rating>> := map[];
    var remaining := ratings.Keys;
    while remaining != {}
      invariant remaining <= ratings.Keys
      invariant acc.Keys == ratings.Keys - remaining
      invariant forall f :: f in acc ==> ratings[f].Some? && acc[f] == [Rating(now, ratings[f].value)]
      decreases remaining
    {
      var f :| f in remaining;
      match ratings[f] {
        case None =>
          return None;
        case Some(elo) =>
          acc := acc[f := [Rating(now, elo)]];
      }
      remaining := remaining - {f};
    }
    return Some(acc);
  }

  /** Every step of add-user succeeds: a new user, a complete profile, and a serialisation,
      compression and write that do not fail. */
  predicate Succeeds(username: Option<string>, table: Table, env: Env) {
    && Looked(username, table, env) && Profile(env).Some? && CompleteProfile(Profile(env).value)
    && env.serialize(NewUser(Profile(env).value, env.now)).Some?
    && env.compress(env.serialize(NewUser(Profile(env).value, env.now)).value).Some?
    && !env.putItemFails
  }

  /** `function_handler` of add-user. `username` is the path parameter; the method
      returns the response, the external calls made, and the table afterwards. */
  method HandleAddUser(username: Option<string>, table: Table, env: Env)
    returns (response: Response, calls: seq<Call>, table': Table)
    // A missing path parameter: 400, and nothing is called.
    ensures username.None? ==> response == Response(400, KeyMissing) && calls == [] && table' == table
    // The table changes only on success, and only under the normalised id.
    ensures response.status != 200 ==> table' == table
    // Every call made is keyed by the normalised id; the lookup always comes first.
    ensures calls != [] ==> username.Some? && calls[0] == GetItem(ToId(username.value))
    ensures forall i :: 0 <= i < |calls| ==>
              calls[i] in {GetItem(ToId(username.value)), FetchShowdown(ShowdownUrl(ToId(username.value)))} ||
              (calls[i].PutItem? && calls[i].key == ToId(username.value) && i == |calls| - 1)
    ensures username.Some? && env.tableName.None? ==> response == Response(500, TableNameMissing) && calls == []
    ensures username.Some? && env.tableName.Some? && env.getItemFails ==>
              response == Response(400, DatabaseError) && calls == [GetItem(ToId(username.value))]
    // An already-tracked user is refused before Pokémon Showdown is asked.
    ensures username.Some? && env.tableName.Some? && !env.getItemFails && ToId(username.value) in table ==>
              response == Response(400, AlreadyAdded) && calls == [GetItem(ToId(username.value))]
    ensures (username.Some? && env.tableName.Some? && !env.getItemFails && ToId(username.value) !in table &&
             env.showdown.Replied? && env.showdown.status == 404) ==>
              response == Response(404, NotRegistered)
    ensures (username.Some? && env.tableName.Some? && !env.getItemFails && ToId(username.value) !in table &&
             env.showdown.Replied? && env.showdown.status != 404 && env.showdown.status != 200) ==>
              response == Response(500, ShowdownStatus(env.showdown.status, username.value, ToId(username.value)))
    ensures response.status == 404 ==> response.body == NotRegistered
    ensures Looked(username, table, env) && env.showdown.Unreachable? ==>
              response == Response(500, ShowdownUnreachable(ToId(username.value)))
    // A 200 reply whose body cannot be read or parsed.
    ensures (Looked(username, table, env) && env.showdown.Replied? && env.showdown.status == 200 &&
             Profile(env).None?) ==> response == Response(500, ParseError)
    // A profile lacking a field, in the order the handler reads them.
    ensures Looked(username, table, env) && Profile(env).Some? && Profile(env).value.username.None? ==>
              response == Response(500, UsernameFieldError)
    ensures (Looked(username, table, env) && Profile(env).Some? && Profile(env).value.username.Some? &&
             Profile(env).value.userid.None?) ==> response == Response(500, UseridFieldError)
    ensures (Looked(username, table, env) && Profile(env).Some? && Profile(env).value.username.Some? &&
             Profile(env).value.userid.Some? && Profile(env).value.ratings.None?) ==>
              response == Response(500, ParseError)
    ensures (Looked(username, table, env) && Profile(env).Some? && Profile(env).value.username.Some? &&
             Profile(env).value.userid.Some? && Profile(env).value.ratings.Some? &&
             !CompleteProfile(Profile(env).value)) ==> response == Response(500, EloError)
    // A complete profile: serialising, compressing and the write decide the outcome.
    ensures (Looked(username, table, env) && Profile(env).Some? && CompleteProfile(Profile(env).value) &&
             env.serialize(NewUser(Profile(env).value, env.now)).None?) ==>
              response == Response(500, ParseError)
    ensures (Looked(username, table, env) && Profile(env).Some? && CompleteProfile(Profile(env).value) &&
             env.serialize(NewUser(Profile(env).value, env.now)).Some? &&
             env.compress(env.serialize(NewUser(Profile(env).value, env.now)).value).None?) ==>
              response == Response(500, CompressError)
    ensures (Looked(username, table, env) && Profile(env).Some? && CompleteProfile(Profile(env).value) &&
             env.serialize(NewUser(Profile(env).value, env.now)).Some? &&
             env.compress(env.serialize(NewUser(Profile(env).value, env.now)).value).Some? &&
             env.putItemFails) ==>
              response == Response(500, StoreError) &&
              calls == [GetItem(ToId(username.value)), FetchShowdown(ShowdownUrl(ToId(username.value))),
                        PutItem(ToId(username.value), StatsItem(ToId(username.value),
                          env.compress(env.serialize(NewUser(Profile(env).value, env.now)).value).value))]
    // A failure after the lookup, other than the write: only the lookup and the profile
    // request were made.
    ensures Looked(username, table, env) && response.status != 200 && response.body != StoreError ==>
              calls == [GetItem(ToId(username.value)), FetchShowdown(ShowdownUrl(ToId(username.value)))]
    // Exactly when every step succeeds the answer is 200.
    ensures response.status == 200 <==> Succeeds(username, table, env)
    // Success: the one write stores the gzipped JSON of the new record under the id.
    ensures response.status == 200 ==>
              && response.body.Added?
              && response.body.username == username.value
              && response.body.id == ToId(username.value)
              && env.serialize(NewUser(Profile(env).value, env.now)) == Some(response.body.userJson)
              && env.compress(response.body.userJson).Some?
              && var item := StatsItem(ToId(username.value), env.compress(response.body.userJson).value);
                 table' == table[ToId(username.value) := item] &&
                 calls == [GetItem(ToId(username.value)), FetchShowdown(ShowdownUrl(ToId(username.value))),
                           PutItem(ToId(username.value), item)]
  {
    table' := table;
    calls := [];
    if username.None? {
      return Response(400, KeyMissing), calls, table';
    }
    var name := username.value;
    var id := ToId(name);
    if env.tableName.None? {
      return Response(500, TableNameMissing), calls, table';
    }
    calls := calls + [GetItem(id)];
    if env.getItemFails {
      return Response(400, DatabaseError), calls, table';
    }
    if id in table {
      return Response(400, AlreadyAdded), calls, table';
    }
    calls := calls + [FetchShowdown(ShowdownUrl(id))];
    if env.showdown.Unreachable? {
      return Response(500, ShowdownUnreachable(id)), calls, table';
    }
    if env.showdown.status == 404 {
      return Response(404, NotRegistered), calls, table';
    }
    if env.showdown.status != 200 {
      return Response(500, ShowdownStatus(env.showdown.status, name, id)), calls, table';
    }
    if env.showdown.text.None? {
      return Response(500, ParseError), calls, table';
    }
    var parsed := env.parseJson(env.showdown.text.value);
    if parsed.None? {
      return Response(500, ParseError), calls, table';
    }
    var doc := parsed.value;
    if doc.username.None? {
      return Response(500, UsernameFieldError), calls, table';
    }
    if doc.userid.None? {
      return Response(500, UseridFieldError), calls, table';
    }
    var currentTime := env.now;
    if doc.ratings.None? {
      return Response(500, ParseError), calls, table';
    }
    var formats := BuildFormats(doc.ratings.value, currentTime);
    if formats.None? {
      return Response(500, EloError), calls, table';
    }
    var user := User(doc.username.value, doc.userid.value, formats.value);
    NewUserUnique(doc, currentTime, user);
    var userString := env.serialize(user);
    if userString.None? {
      return Response(500, ParseError), calls, table';
    }
    var compressed := env.compress(userString.value);
    if compressed.None? {
      return Response(500, CompressError), calls, table';
    }
    var item := StatsItem(id, compressed.value);
    calls := calls + [PutItem(id, item)];
    if env.putItemFails {
      return Response(500, StoreError), calls, table';
    }
    table' := table[id := item];
    response := Response(200, Added(name, id, userString.value));
  }
}
