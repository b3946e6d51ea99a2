/**
 The token the server searches with and the gate in front of the search
 endpoint. The server keeps a default token (from the environment or the
 configuration) and a user token that starts empty and is replaced only by a
 token the Graph API accepts; verification is an oracle `verify(token)`.
 */
module SearchGate {
  import opened JsValues

  /** The configuration file's stand-in value, treated as no token at all. */
  const Placeholder: string := "REPLACE_WITH_YOUR_NEW_FACEBOOK_ACCESS_TOKEN"

  /** The only search type the server sends upstream. */
  const KeywordUnordered: string := "KEYWORD_UNORDERED"

  /** The two tokens the server holds: the one a user set (empty until then) and the default one. */
  datatype TokenState = TokenState(userToken: string, defaultToken: Option<string>)

  /** The state at start-up: the environment's token when it is non-empty, else the configured one. */
  function Startup(env: Option<string>, configured: Option<string>): (st: TokenState)
    ensures st.userToken == ""
    ensures Truthy(env) ==> st.defaultToken == env
    ensures !Truthy(env) ==> st.defaultToken == configured
  {
    TokenState("", if Truthy(env) then env else configured)
  }

  /** The token a search uses: the user's when it is non-empty, otherwise the default. */
  function SelectToken(st: TokenState): (r: Option<string>)
    ensures st.userToken != "" ==> r == Some(st.userToken)
    ensures st.userToken == "" ==> r == st.defaultToken
    ensures Truthy(r) <==> st.userToken != "" || Truthy(st.defaultToken)
  {
    if st.userToken != "" then Some(st.userToken) else st.defaultToken
  }

  /** A token the server is willing to send: present, non-empty, not the placeholder. */
  function Usable(token: Option<string>): (b: bool)
    ensures token.None? ==> !b
    ensures token == Some("") || token == Some(Placeholder) ==> !b
    ensures token.Some? && token.value != "" && token.value != Placeholder ==> b
  {
    Truthy(token) && token.value != Placeholder
  }

  datatype SearchReply =
    | QueryRequired                       // 400 'Search query is required'
    | NeedToken                           // 400 with needToken: true
    | Forward(token: string, searchTerms: string, searchType: string)
  {
    /** The status of the replies the server makes itself; a forwarded search has the upstream's. */
    function Status(): nat
      requires !Forward?
    {
      400
    }
  }

  /** The search endpoint up to the upstream call. */
  function Search(st: TokenState, query: Option<string>, searchType: Option<string>): (r: SearchReply)
    ensures r.QueryRequired? <==> !Truthy(query)
    ensures r.NeedToken? <==> Truthy(query) && !Usable(SelectToken(st))
    ensures r.Forward? ==>
      && Some(r.token) == SelectToken(st)
      && r.token != "" && r.token != Placeholder
      && Some(r.searchTerms) == query
      && r.searchType == KeywordUnordered
  {
    if !Truthy(query) then QueryRequired
    else
      var token := SelectToken(st);
      if !Usable(token) then NeedToken
      else Forward(token.value, query.value, KeywordUnordered)
  }

  /** The requested search type never changes the outcome: every search is sent as keyword search. */
  lemma SearchTypeIgnored(st: TokenState, query: Option<string>, t1: Option<string>, t2: Option<string>)
    ensures Search(st, query, t1) == Search(st, query, t2)
  {
  }

  /**
   Right after start-up no user token is set, so a search with a query is
   forwarded with the environment's token when it is usable. An empty or
   missing environment token leaves the configured one in charge, while a
   non-empty but unusable one (the placeholder) shadows it.
   */
  lemma StartupSearch(env: Option<string>, configured: Option<string>, query: Option<string>, searchType: Option<string>)
    requires Truthy(query)
    ensures Usable(env) ==>
      Search(Startup(env, configured), query, searchType) == Forward(env.value, query.value, KeywordUnordered)
    ensures Truthy(env) && !Usable(env) ==> Search(Startup(env, configured), query, searchType) == NeedToken
    ensures !Truthy(env) && Usable(configured) ==>
      Search(Startup(env, configured), query, searchType) == Forward(configured.value, query.value, KeywordUnordered)
    ensures !Truthy(env) && !Usable(configured) ==> Search(Startup(env, configured), query, searchType) == NeedToken
  {
  }

  /** A non-empty user token takes precedence over the default, even one that cannot be used. */
  lemma UserTokenTakesPrecedence(st: TokenState, query: Option<string>, searchType: Option<string>)
    requires st.userToken != "" && Truthy(query)
    ensures st.userToken != Placeholder ==>
      Search(st, query, searchType) == Forward(st.userToken, query.value, KeywordUnordered)
    ensures st.userToken == Placeholder ==> Search(st, query, searchType) == NeedToken
  {
  }

  datatype SetTokenReply =
    | TokenMissing    // 400 'Token não fornecido'
    | TokenRejected   // 400 'Token inválido ou expirado'
    | TokenSaved      // 200 success: true
  {
    function Status(): nat {
      if TokenSaved? then 200 else 400
    }
  }

  /** The set-token endpoint: a token is kept only when verification accepts it. */
  function SetToken(st: TokenState, token: Option<string>, verify: string -> bool): (r: (TokenState, SetTokenReply))
    ensures !Truthy(token) ==> r == (st, TokenMissing)
    ensures Truthy(token) && !verify(token.value) ==> r == (st, TokenRejected)
    ensures r.1 == TokenSaved <==> Truthy(token) && verify(token.value)
    ensures r.1 == TokenSaved ==> r.0 == st.(userToken := token.value)
    ensures r.1 != TokenSaved ==> r.0 == st
    ensures r.1.Status() == 200 <==> r.1 == TokenSaved
  {
    if !Truthy(token) then (st, TokenMissing)
    else if verify(token.value) then (st.(userToken := token.value), TokenSaved)
    else (st, TokenRejected)
  }

  /** After a token is saved, every search with a query is sent with that token, unless it is the placeholder. */
  lemma SavedTokenIsUsed(
    st: TokenState, token: Option<string>, verify: string -> bool,
    query: Option<string>, searchType: Option<string>)
    requires SetToken(st, token, verify).1 == TokenSaved
    requires Truthy(query)
    ensures token.value != Placeholder ==>
      Search(SetToken(st, token, verify).0, query, searchType) == Forward(token.value, query.value, KeywordUnordered)
    ensures token.value == Placeholder ==>
      Search(SetToken(st, token, verify).0, query, searchType) == NeedToken
  {
  }

  /** A rejected or missing token leaves every later search exactly as it was. */
  lemma UnsavedTokenChangesNothing(
    st: TokenState, token: Option<string>, verify: string -> bool,
    query: Option<string>, searchType: Option<string>)
    requires SetToken(st, token, verify).1 != TokenSaved
    ensures Search(SetToken(st, token, verify).0, query, searchType) == Search(st, query, searchType)
  {
  }
}
