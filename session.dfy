/** The refresh-token session: issuing a token pair stores the refresh token on the user,
    and a refresh succeeds only for the token stored last. Tokens are opaque strings and
    signature verification is a parameter: the user id a token verifies to, or None when
    verification throws. */
module Session {
  import opened Js
  import opened Records

  type Token = string

  /** The stored users after recording `t` as the refresh token of user `id`. */
  function StoreRefreshToken(users: map<ObjectId, User>, id: ObjectId, t: Token): (r: map<ObjectId, User>)
    requires id in users
    ensures r.Keys == users.Keys
    ensures r[id].refrestoken == Some(t)
    ensures r[id].(refrestoken := users[id].refrestoken) == users[id]
    ensures forall k :: k in users && k != id ==> r[k] == users[k]
  {
    users[id := users[id].(refrestoken := Some(t))]
  }

  /** `GenerateAccessTokenAndRefreshToken(id)`, with the two freshly signed tokens given:
      null and no change for an unknown user, otherwise the refresh token is stored and
      both tokens returned. */
  method IssueTokens(users: Collection<User>, id: ObjectId, access: Token, refresh: Token)
    returns (r: Option<(Token, Token)>)
    modifies users
    ensures id !in old(users.records) ==> r == None && users.records == old(users.records)
    ensures id in old(users.records) ==>
      r == Some((access, refresh)) && users.records == StoreRefreshToken(old(users.records), id, refresh)
  {
    if id !in users.records {
      return None;
    }
    users.records := users.records[id := users.records[id].(refrestoken := Some(refresh))];
    r := Some((access, refresh));
  }

  /** The login response once the password has matched: destructuring a null result
      throws, which is reported as 500. */
  function LoginStatus(issued: Option<(Token, Token)>): (status: int)
    ensures status == 200 <==> issued.Some?
    ensures status == 500 <==> issued.None?
  {
    if issued.Some? then 200 else 500
  }

  /** A refresh response: the status, the new access token and the refresh cookie sent. */
  datatype RefreshReply = RefreshReply(status: int, accessToken: Option<Token>, cookie: Option<Token>)

  /** The refresh handler: 400 for no cookie, 500 when verification throws, 404 for a user
      that no longer exists, 400 when the presented token is not the stored one, else a new
      access token with the same refresh cookie. Nothing stored changes. */
  function Refresh(users: map<ObjectId, User>, cookie: Option<Token>, verify: Token -> Option<ObjectId>, newAccess: Token)
    : (r: RefreshReply)
    ensures r.status == 200 || r.status == 400 || r.status == 404 || r.status == 500
    ensures cookie.None? || cookie == Some("") ==> r.status == 400
    ensures r.status == 200 <==>
      cookie.Some? && cookie.value != "" && verify(cookie.value).Some? && verify(cookie.value).value in users &&
      users[verify(cookie.value).value].refrestoken == cookie
    ensures r.status == 200 ==> r.accessToken == Some(newAccess) && r.cookie == cookie
    ensures r.status != 200 ==> r.accessToken == None && r.cookie == None
    ensures cookie.Some? && cookie.value != "" && verify(cookie.value).None? ==> r.status == 500
    ensures cookie.Some? && cookie.value != "" && verify(cookie.value).Some? && verify(cookie.value).value !in users ==>
      r.status == 404
  {
    if cookie.None? || cookie.value == "" then RefreshReply(400, None, None)
    else
      match verify(cookie.value)
      case None => RefreshReply(500, None, None)
      case Some(id) =>
        if id !in users then RefreshReply(404, None, None)
        else if users[id].refrestoken != cookie then RefreshReply(400, None, None)
        else RefreshReply(200, Some(newAccess), cookie)
  }

  /** Issuing a new pair replaces the stored token, so of the tokens that verify to the
      user only the one issued last still refreshes. */
  lemma OnlyLatestTokenRefreshes(users: map<ObjectId, User>, id: ObjectId, latest: Token, presented: Token,
                                 verify: Token -> Option<ObjectId>, newAccess: Token)
    requires id in users && presented != "" && verify(presented) == Some(id)
    ensures Refresh(StoreRefreshToken(users, id, latest), Some(presented), verify, newAccess).status == 200
      <==> presented == latest
  {
  }

  // ---------------------------------------------------------------------------
  // Logout
  // ---------------------------------------------------------------------------

  /** Assigning the string `value` to `path` on user `id` and saving: the schema is strict,
      so only an assignment to the declared `refrestoken` path is stored. */
  function SaveTokenPath(users: map<ObjectId, User>, id: ObjectId, path: string, value: Token): (r: map<ObjectId, User>)
    requires id in users
    ensures path == "refrestoken" ==> r == StoreRefreshToken(users, id, value)
    ensures path != "refrestoken" ==> r == users
  {
    if path == "refrestoken" then users[id := users[id].(refrestoken := Some(value))] else users
  }

  /** Logout as written: it assigns '' to `refreshtoken`, which the schema does not declare,
      so the stored `refrestoken` stays as it was. */
  method Logout(users: Collection<User>, id: ObjectId)
    requires id in users.records
    modifies users
    ensures users.records == SaveTokenPath(old(users.records), id, "refreshtoken", "")
    ensures users.records == old(users.records)
  {
    users.records := SaveTokenPath(users.records, id, "refreshtoken", "");
  }

  /** A token that refreshed before the as-written logout still refreshes after it. */
  lemma RefreshSurvivesLogout(users: map<ObjectId, User>, id: ObjectId, t: Token,
                              verify: Token -> Option<ObjectId>, newAccess: Token)
    requires id in users && Refresh(users, Some(t), verify, newAccess).status == 200
    ensures Refresh(SaveTokenPath(users, id, "refreshtoken", ""), Some(t), verify, newAccess).status == 200
  {
    assert "refreshtoken" != "refrestoken" by {
      assert |"refreshtoken"| == 12 && |"refrestoken"| == 11;
    }
  }

  /** Logout as intended: '' is assigned to the declared `refrestoken` path. */
  method LogoutIntended(users: Collection<User>, id: ObjectId)
    requires id in users.records
    modifies users
    ensures users.records == SaveTokenPath(old(users.records), id, "refrestoken", "")
    ensures users.records == StoreRefreshToken(old(users.records), id, "")
  {
    users.records := SaveTokenPath(users.records, id, "refrestoken", "");
  }

  /** After the intended logout, no token that verifies to the user refreshes. */
  lemma RefreshFailsAfterIntendedLogout(users: map<ObjectId, User>, id: ObjectId, t: Token,
                                        verify: Token -> Option<ObjectId>, newAccess: Token)
    requires id in users && verify(t) == Some(id)
    ensures Refresh(SaveTokenPath(users, id, "refrestoken", ""), Some(t), verify, newAccess).status == 400
  {
  }
}
