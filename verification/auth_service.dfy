/**
 The token helpers of the authentication service: the persisted credential lives under the
 single storage key "token", and `verifyToken` asks the API whether it is still valid. The
 browser storage is a map from keys to strings.
 */
module AuthService {
  import opened Js
  import opened Http

  type Storage = map<string, string>

  const TokenKey := "token"

  /** Every key other than the token key holds what it held before. */
  ghost predicate OthersUnchanged(before: Storage, after: Storage) {
    forall k :: k != TokenKey ==> (k in after <==> k in before) && (k in after ==> after[k] == before[k])
  }

  /** `localStorage.getItem('token')`: the stored string, or null. */
  function GetToken(st: Storage): (r: Option<string>)
    ensures r.Some? <==> TokenKey in st
    ensures r.Some? ==> r.value == st[TokenKey]
  {
    if TokenKey in st then Some(st[TokenKey]) else None
  }

  /** `localStorage.setItem('token', token)`. */
  function SaveToken(st: Storage, token: string): (r: Storage)
    ensures GetToken(r) == Some(token)
    ensures OthersUnchanged(st, r)
  {
    st[TokenKey := token]
  }

  /**
   The text `setItem` stores for a value that may not be a string (`String(v)`): a missing
   value is stored as the text "undefined", which is not empty.
   */
  function StoredText(v: Value): (r: string)
    ensures v.Str? ==> r == v.text
    ensures !v.Str? ==> r != ""
    ensures v == Undefined ==> r == "undefined"
  {
    match v
    case Str(text) => text
    case Num(n) => IntText(n)
    case NaN => "NaN"
    case Undefined => "undefined"
  }

  /** `localStorage.setItem('token', v)` for a value of any type. */
  function SaveValue(st: Storage, v: Value): (r: Storage)
    ensures GetToken(r) == Some(StoredText(v))
    ensures !v.Str? ==> Truthy(GetToken(r))
    ensures OthersUnchanged(st, r)
  {
    SaveToken(st, StoredText(v))
  }

  /** `localStorage.removeItem('token')`. */
  function RemoveToken(st: Storage): (r: Storage)
    ensures GetToken(r) == None
    ensures OthersUnchanged(st, r)
  {
    st - {TokenKey}
  }

  /** A later save replaces an earlier one entirely. */
  lemma SaveOverwrites(st: Storage, first: string, second: string)
    ensures SaveToken(SaveToken(st, first), second) == SaveToken(st, second)
  {
  }

  /** Removing after a save leaves storage as removing alone would. */
  lemma RemoveUndoesSave(st: Storage, token: string)
    ensures RemoveToken(SaveToken(st, token)) == RemoveToken(st)
  {
  }

  /** Saving after a removal is the same as saving. */
  lemma SaveAfterRemove(st: Storage, token: string)
    ensures SaveToken(RemoveToken(st), token) == SaveToken(st, token)
  {
  }

  /** What `verifyToken` does: the request it sends, if any, and what it returns (`None` is `false`). */
  datatype Verification<T> = Verification(request: Option<Request>, result: Option<T>)

  const VerifyPath := "/auth/verify"

  /**
   `verifyToken()`: without a truthy stored token it returns false and sends nothing; otherwise
   it sends `GET /auth/verify` with the bearer token and returns the reply body, or false when
   the request fails in any way.
   */
  function VerifyToken<T>(st: Storage, reply: Outcome<T>): (r: Verification<T>)
    ensures !Truthy(GetToken(st)) ==> r.request == None && r.result == None
    ensures Truthy(GetToken(st)) ==> r.request == Some(Request(GET, VerifyPath, Bearer(GetToken(st)), []))
    ensures r.result.Some? <==> Truthy(GetToken(st)) && reply.Ok?
    ensures r.result.Some? ==> r.result.value == reply.body
  {
    var token := GetToken(st);
    if !Truthy(token) then Verification(None, None)
    else
      var request := Request(GET, VerifyPath, Bearer(token), []);
      match reply
      case Ok(body) => Verification(Some(request), Some(body))
      case _ => Verification(Some(request), None)
  }

  /** Once the token has been removed, verification fails without contacting the API. */
  lemma VerifyAfterRemove<T>(st: Storage, reply: Outcome<T>)
    ensures VerifyToken(RemoveToken(st), reply) == Verification(None, None)
  {
  }
}
