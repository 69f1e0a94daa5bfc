/** The two request handlers used together: a user added under one spelling of the name
    is found under any spelling with the same id. */
module Handlers {
  import opened Wrappers
  import opened UserId
  import opened Store
  import AddUser
  import GetUser

  /** Add-user is called with the name from the path; get-user is then called with a body
      whose `username` field is another spelling of it. */
  method AddThenGet(table: Table, addEnv: AddUser.Env, getEnv: GetUser.Env, name: string,
                    requestText: string, requestName: string)
    returns (added: AddUser.Response, fetched: GetUser.Response)
    requires getEnv.parseJson(requestText) == Some(GetUser.Str(requestName))
    requires ToId(requestName) == ToId(name)
    requires getEnv.tableName.Some? && !getEnv.getItemFails
    requires forall json :: addEnv.compress(json).Some? ==>
               getEnv.decompress(addEnv.compress(json).value) == Some(json)
    ensures added.status == 200 <==> AddUser.Succeeds(Some(name), table, addEnv)
    ensures added.status == 200 ==> added.body.Added? && added.body.id == ToId(name)
    ensures added.status == 200 ==> fetched == GetUser.Response(200, GetUser.Stats(added.body.userJson))
  {
    var calls, table';
    added, calls, table' := AddUser.HandleAddUser(Some(name), table, addEnv);
    var handled := GetUser.HandleGetUser(GetUser.Text(requestText), table', getEnv);
    fetched := handled.response;
    if added.status == 200 {
      GetUser.ReadsBackAddedUser(table, ToId(name), addEnv.compress(added.body.userJson).value,
                                 added.body.userJson, GetUser.Text(requestText), getEnv);
    }
  }
}
