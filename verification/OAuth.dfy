/** Listing and revoking what third-party clients may do on behalf of a user. */
module OAuth {
  import opened Wrappers

  /** Token strings, client ids and users are numbers; access and refresh tokens share one space. */
  datatype Token = Token(access: nat, refresh: nat, client: nat, user: nat, expiresAt: nat, createdAt: nat)
  datatype Client = Client(clientId: nat, name: string, secret: nat)
  datatype Entry = Entry(clientId: nat, name: string, scopes: seq<nat>, authorizedAt: nat)

  datatype Revocation = ClientNotFound | InvalidSecret | Done
  datatype Grant = InvalidToken | MissingScope | Granted(user: nat, client: nat)

  // ---------- the listing ----------

  function Filter<T(!new)>(s: seq<T>, keep: T -> bool): (r: seq<T>)
    ensures forall x :: x in r <==> x in s && keep(x)
  {
    if s == [] then [] else (if keep(s[0]) then [s[0]] else []) + Filter(s[1..], keep)
  }

  function HeldBy(u: nat, c: nat): Token -> bool {
    (t: Token) => t.user == u && t.client == c
  }

  /** The user's tokens for one client, in table order. */
  function Held(tokens: seq<Token>, u: nat, c: nat): seq<Token> {
    Filter(Filter(tokens, (t: Token) => t.user == u), (t: Token) => t.client == c)
  }

  function ClientIds(tokens: seq<Token>): set<nat> {
    set t | t in tokens :: t.client
  }

  function InsertByCreation(t: Token, sorted: seq<Token>): seq<Token> {
    if sorted == [] || t.createdAt >= sorted[0].createdAt then [t] + sorted
    else [sorted[0]] + InsertByCreation(t, sorted[1..])
  }

  /** Stable, newest first. */
  function SortByCreation(tokens: seq<Token>): seq<Token> {
    if tokens == [] then [] else InsertByCreation(tokens[0], SortByCreation(tokens[1..]))
  }

  function FirstActive(tokens: seq<Token>, now: nat): Option<Token> {
    if tokens == [] then None else if tokens[0].expiresAt > now then Some(tokens[0]) else FirstActive(tokens[1..], now)
  }

  /** Scopes come from the first active token, or from the first one when none is active. */
  function ScopesOf(held: seq<Token>, now: nat, decode: nat -> seq<nat>): seq<nat> {
    match FirstActive(held, now)
    case Some(t) => decode(t.access)
    case None => if held != [] then decode(held[0].access) else []
  }

  function EntryOf(client: Client, held: seq<Token>, now: nat, decode: nat -> seq<nat>): Entry {
    var sorted := SortByCreation(held);
    Entry(client.clientId, client.name, ScopesOf(held, now, decode), if sorted != [] then sorted[0].createdAt else now)
  }

  function EntriesOf(clients: seq<Client>, tokens: seq<Token>, u: nat, now: nat, decode: nat -> seq<nat>): seq<Entry> {
    if clients == [] then []
    else
      [EntryOf(clients[0], Held(tokens, u, clients[0].clientId), now, decode)] +
      EntriesOf(clients[1..], tokens, u, now, decode)
  }

  function GetAuthorizedClients(clients: seq<Client>, tokens: seq<Token>, u: nat, now: nat,
                                decode: nat -> seq<nat>): seq<Entry> {
    var ids := ClientIds(Filter(tokens, (t: Token) => t.user == u));
    if ids == {} then [] else EntriesOf(Filter(clients, (c: Client) => c.clientId in ids), tokens, u, now, decode)
  }

  // ---------- what the listing shows ----------

  ghost predicate UniqueIds(clients: seq<Client>) {
    forall i, j :: 0 <= i < j < |clients| ==> clients[i].clientId != clients[j].clientId
  }

  ghost predicate Holds(tokens: seq<Token>, u: nat, c: nat) {
    exists t :: t in tokens && t.user == u && t.client == c
  }

  /** Reference: the clients of the user, by one pass over the client table. */
  ghost function Listing(clients: seq<Client>, tokens: seq<Token>, u: nat, now: nat,
                         decode: nat -> seq<nat>): seq<Entry> {
    if clients == [] then []
    else
      (if Holds(tokens, u, clients[0].clientId)
       then [EntryOf(clients[0], Held(tokens, u, clients[0].clientId), now, decode)] else []) +
      Listing(clients[1..], tokens, u, now, decode)
  }

  lemma {:induction false} EntriesAreListing(clients: seq<Client>, tokens: seq<Token>, u: nat, now: nat,
                                             decode: nat -> seq<nat>, ids: set<nat>)
    requires forall c :: c in ids <==> Holds(tokens, u, c)
    ensures EntriesOf(Filter(clients, (c: Client) => c.clientId in ids), tokens, u, now, decode) ==
      Listing(clients, tokens, u, now, decode)
  {
    var keep := (c: Client) => c.clientId in ids;
    if clients != [] {
      EntriesAreListing(clients[1..], tokens, u, now, decode, ids);
      var rest := Filter(clients[1..], keep);
      if keep(clients[0]) {
        assert ([clients[0]] + rest)[1..] == rest;
        assert Filter(clients, keep) == [clients[0]] + rest;
      } else {
        assert Filter(clients, keep) == rest;
      }
    }
  }

  lemma IdsAreHeld(tokens: seq<Token>, u: nat)
    ensures forall c :: c in ClientIds(Filter(tokens, (t: Token) => t.user == u)) <==> Holds(tokens, u, c)
  {
  }

  lemma {:induction false} NothingListed(clients: seq<Client>, tokens: seq<Token>, u: nat, now: nat,
                                         decode: nat -> seq<nat>)
    requires forall c :: !Holds(tokens, u, c)
    ensures Listing(clients, tokens, u, now, decode) == []
  {
    if clients != [] {
      NothingListed(clients[1..], tokens, u, now, decode);
    }
  }

  /** The service's pipeline over token and client queries computes the reference listing. */
  lemma GetAuthorizedClientsIsListing(clients: seq<Client>, tokens: seq<Token>, u: nat, now: nat,
                                      decode: nat -> seq<nat>)
    ensures GetAuthorizedClients(clients, tokens, u, now, decode) == Listing(clients, tokens, u, now, decode)
  {
    var ids := ClientIds(Filter(tokens, (t: Token) => t.user == u));
    IdsAreHeld(tokens, u);
    if ids == {} {
      forall c ensures !Holds(tokens, u, c) {
        assert c !in ids;
      }
      NothingListed(clients, tokens, u, now, decode);
    } else {
      EntriesAreListing(clients, tokens, u, now, decode, ids);
    }
  }

  ghost function Occurrences(entries: seq<Entry>, c: nat): nat {
    if entries == [] then 0 else (if entries[0].clientId == c then 1 else 0) + Occurrences(entries[1..], c)
  }

  ghost predicate Registered(clients: seq<Client>, c: nat) {
    exists i :: 0 <= i < |clients| && clients[i].clientId == c
  }

  /** Each registered client the user holds a token for is listed once, and no other client is listed. */
  lemma {:induction false} ListedOnceIffHeld(clients: seq<Client>, tokens: seq<Token>, u: nat, now: nat,
                                             decode: nat -> seq<nat>, c: nat)
    requires UniqueIds(clients)
    ensures Occurrences(Listing(clients, tokens, u, now, decode), c) ==
            if Registered(clients, c) && Holds(tokens, u, c) then 1 else 0
    decreases |clients|
  {
    if clients != [] {
      var rest := Listing(clients[1..], tokens, u, now, decode);
      ListedOnceIffHeld(clients[1..], tokens, u, now, decode, c);
      assert Registered(clients[1..], c) ==> Registered(clients, c) by {
        if Registered(clients[1..], c) {
          var i :| 0 <= i < |clients[1..]| && clients[1..][i].clientId == c;
          assert clients[i + 1].clientId == c;
        }
      }
      if clients[0].clientId == c {
        assert Registered(clients, c);
        assert !Registered(clients[1..], c);
      } else if Registered(clients, c) {
        var i :| 0 <= i < |clients| && clients[i].clientId == c;
        assert clients[1..][i - 1].clientId == c;
      }
      if Holds(tokens, u, clients[0].clientId) {
        var entry := EntryOf(clients[0], Held(tokens, u, clients[0].clientId), now, decode);
        assert ([entry] + rest)[1..] == rest;
      } else {
        assert [] + rest == rest;
      }
    }
  }

  ghost predicate Descending(s: seq<Token>) {
    forall i, j :: 0 <= i < j < |s| ==> s[i].createdAt >= s[j].createdAt
  }

  lemma PrependDescends(t: Token, s: seq<Token>)
    requires Descending(s) && forall j :: 0 <= j < |s| ==> t.createdAt >= s[j].createdAt
    ensures Descending([t] + s)
  {
  }

  lemma {:induction false} InsertSorts(t: Token, sorted: seq<Token>)
    requires Descending(sorted)
    ensures Descending(InsertByCreation(t, sorted))
    ensures multiset(InsertByCreation(t, sorted)) == multiset(sorted) + multiset{t}
    decreases |sorted|
  {
    if sorted == [] || t.createdAt >= sorted[0].createdAt {
    } else {
      InsertSorts(t, sorted[1..]);
      var rest := InsertByCreation(t, sorted[1..]);
      assert sorted == [sorted[0]] + sorted[1..];
      forall j | 0 <= j < |rest| ensures sorted[0].createdAt >= rest[j].createdAt {
        assert rest[j] in multiset(rest);
        assert rest[j] == t || rest[j] in sorted[1..];
      }
      PrependDescends(sorted[0], rest);
    }
  }

  lemma {:induction false} SortSorts(tokens: seq<Token>)
    ensures Descending(SortByCreation(tokens)) && multiset(SortByCreation(tokens)) == multiset(tokens)
    decreases |tokens|
  {
    if tokens != [] {
      SortSorts(tokens[1..]);
      InsertSorts(tokens[0], SortByCreation(tokens[1..]));
      assert tokens == [tokens[0]] + tokens[1..];
    }
  }

  /** An entry shows the latest creation among the user's tokens for that client. */
  lemma AuthorizedAtIsLatest(client: Client, tokens: seq<Token>, u: nat, now: nat, decode: nat -> seq<nat>)
    requires Holds(tokens, u, client.clientId)
    ensures
      var at := EntryOf(client, Held(tokens, u, client.clientId), now, decode).authorizedAt;
      && (exists t :: t in tokens && t.user == u && t.client == client.clientId && t.createdAt == at)
      && (forall t :: t in tokens && t.user == u && t.client == client.clientId ==> t.createdAt <= at)
  {
    var held := Held(tokens, u, client.clientId);
    HeldMembers(tokens, u, client.clientId);
    var some :| some in tokens && some.user == u && some.client == client.clientId;
    assert some in held;
    FirstIsLatest(held);
  }

  lemma HeldMembers(tokens: seq<Token>, u: nat, c: nat)
    ensures forall t :: t in Held(tokens, u, c) <==> t in tokens && t.user == u && t.client == c
  {
  }

  lemma FirstIsLatest(tokens: seq<Token>)
    requires tokens != []
    ensures
      var sorted := SortByCreation(tokens);
      sorted != [] && sorted[0] in tokens && forall t :: t in tokens ==> t.createdAt <= sorted[0].createdAt
  {
    var sorted := SortByCreation(tokens);
    SortSorts(tokens);
    assert |sorted| == |multiset(sorted)| == |multiset(tokens)| == |tokens|;
    assert sorted[0] in multiset(sorted);
    forall t | t in tokens ensures t.createdAt <= sorted[0].createdAt {
      assert t in multiset(sorted);
    }
  }

  /** The scopes shown are those in the first active token, or in the first one when none is active. */
  lemma {:induction false} ScopesFromFirstActive(held: seq<Token>, now: nat, decode: nat -> seq<nat>, i: nat)
    requires i < |held| && forall k :: 0 <= k < i ==> held[k].expiresAt <= now
    ensures held[i].expiresAt > now ==> ScopesOf(held, now, decode) == decode(held[i].access)
    ensures i + 1 == |held| && held[i].expiresAt <= now ==> ScopesOf(held, now, decode) == decode(held[0].access)
  {
    FirstActiveAt(held, now, i);
  }

  lemma {:induction false} FirstActiveAt(held: seq<Token>, now: nat, i: nat)
    requires i < |held| && forall k :: 0 <= k < i ==> held[k].expiresAt <= now
    ensures held[i].expiresAt > now ==> FirstActive(held, now) == Some(held[i])
    ensures i + 1 == |held| && held[i].expiresAt <= now ==> FirstActive(held, now) == None
    decreases i
  {
    if i > 0 {
      FirstActiveAt(held[1..], now, i - 1);
    }
  }

  /** Every entry shows a registered client's id and name, and the scopes and date of the user's tokens for it. */
  lemma {:induction false} EntriesShowClients(clients: seq<Client>, tokens: seq<Token>, u: nat, now: nat,
                                              decode: nat -> seq<nat>, entry: Entry)
    requires entry in Listing(clients, tokens, u, now, decode)
    ensures exists c ::
      && c in clients && Holds(tokens, u, c.clientId) && c.clientId == entry.clientId && c.name == entry.name
      && entry.scopes == ScopesOf(Held(tokens, u, c.clientId), now, decode)
    decreases |clients|
  {
    var c := clients[0];
    if !(Holds(tokens, u, c.clientId) && entry == EntryOf(c, Held(tokens, u, c.clientId), now, decode)) {
      EntriesShowClients(clients[1..], tokens, u, now, decode, entry);
    }
  }

  // ---------- revoking a client ----------

  lemma {:induction false} HeldAfterRemoval(tokens: seq<Token>, gone: Token -> bool, u: nat, c: nat)
    requires forall t: Token :: t.user == u && t.client == c ==> !gone(t)
    ensures Held(Filter(tokens, (t: Token) => !gone(t)), u, c) == Held(tokens, u, c)
    decreases |tokens|
  {
    if tokens != [] {
      HeldAfterRemoval(tokens[1..], gone, u, c);
      HeldCons(tokens, u, c);
      var kept, rest := Filter(tokens, (t: Token) => !gone(t)), Filter(tokens[1..], (t: Token) => !gone(t));
      if gone(tokens[0]) {
        assert kept == rest;
      } else {
        assert kept == [tokens[0]] + rest && kept[1..] == rest;
        HeldCons(kept, u, c);
      }
    }
  }

  lemma HeldCons(tokens: seq<Token>, u: nat, c: nat)
    requires tokens != []
    ensures Held(tokens, u, c) == (if tokens[0].user == u && tokens[0].client == c then [tokens[0]] else []) +
      Held(tokens[1..], u, c)
  {
    var byUser, byClient := (t: Token) => t.user == u, (t: Token) => t.client == c;
    var rest := Filter(tokens[1..], byUser);
    if byUser(tokens[0]) {
      assert ([tokens[0]] + rest)[1..] == rest;
    } else {
      assert [] + rest == rest;
    }
  }

  function Without(tokens: seq<Token>, u: nat, c: nat): seq<Token> {
    Filter(tokens, (t: Token) => !HeldBy(u, c)(t))
  }

  lemma {:induction false} WithoutKeepsOthers(tokens: seq<Token>, u: nat, c: nat)
    ensures forall t ::
      multiset(Without(tokens, u, c))[t] == if t.user == u && t.client == c then 0 else multiset(tokens)[t]
    decreases |tokens|
  {
    if tokens != [] {
      WithoutKeepsOthers(tokens[1..], u, c);
      assert tokens == [tokens[0]] + tokens[1..];
      var gone := HeldBy(u, c)(tokens[0]);
      assert Without(tokens, u, c) == (if gone then [] else [tokens[0]]) + Without(tokens[1..], u, c);
    }
  }

  ghost function DropClient(entries: seq<Entry>, c: nat): seq<Entry> {
    if entries == [] then [] else (if entries[0].clientId == c then [] else [entries[0]]) + DropClient(entries[1..], c)
  }

  /** Revoking a client takes exactly its entry out of the user's listing. */
  lemma {:induction false} RevokeDropsEntry(clients: seq<Client>, tokens: seq<Token>, u: nat, c: nat, now: nat,
                                            decode: nat -> seq<nat>)
    ensures Listing(clients, Without(tokens, u, c), u, now, decode) ==
      DropClient(Listing(clients, tokens, u, now, decode), c)
    decreases |clients|
  {
    if clients != [] {
      RevokeDropsEntry(clients[1..], tokens, u, c, now, decode);
      var d, rest := clients[0].clientId, Listing(clients[1..], tokens, u, now, decode);
      if d == c {
        forall t | t in Without(tokens, u, c) ensures !(t.user == u && t.client == c) {
          assert !HeldBy(u, c)(t);
        }
      } else {
        SameHoldings(tokens, u, c, u, d);
      }
      if Holds(tokens, u, d) {
        assert ([EntryOf(clients[0], Held(tokens, u, d), now, decode)] + rest)[1..] == rest;
      } else {
        assert [] + rest == rest;
      }
    }
  }

  lemma SameHoldings(tokens: seq<Token>, u: nat, c: nat, v: nat, d: nat)
    requires (v, d) != (u, c)
    ensures Holds(Without(tokens, u, c), v, d) <==> Holds(tokens, v, d)
    ensures Held(Without(tokens, u, c), v, d) == Held(tokens, v, d)
  {
    HeldAfterRemoval(tokens, HeldBy(u, c), v, d);
    if Holds(tokens, v, d) {
      var t :| t in tokens && t.user == v && t.client == d;
      assert t in Without(tokens, u, c);
    }
  }

  /** Every other user's listing stays as it was. */
  lemma {:induction false} RevokeLeavesOthers(clients: seq<Client>, tokens: seq<Token>, u: nat, c: nat, v: nat,
                                              now: nat, decode: nat -> seq<nat>)
    requires v != u
    ensures Listing(clients, Without(tokens, u, c), v, now, decode) == Listing(clients, tokens, v, now, decode)
    decreases |clients|
  {
    if clients != [] {
      RevokeLeavesOthers(clients[1..], tokens, u, c, v, now, decode);
      SameHoldings(tokens, u, c, v, clients[0].clientId);
    }
  }

  // ---------- revoking a token ----------

  predicate Matches(t: Token, token: nat, c: nat) {
    t.client == c && (t.access == token || t.refresh == token)
  }

  /** Access and refresh tokens are unique columns. */
  ghost predicate UniqueTokens(tokens: seq<Token>) {
    forall i, j :: 0 <= i < j < |tokens| ==>
      tokens[i].access != tokens[j].access && tokens[i].refresh != tokens[j].refresh
  }

  function RemoveAt<T>(s: seq<T>, i: nat): seq<T>
    requires i < |s|
  {
    s[..i] + s[i + 1..]
  }

  /** One string is the access token of one row of the client and the refresh token of another. */
  ghost predicate InBothColumns(tokens: seq<Token>, token: nat, c: nat) {
    exists i, j :: 0 <= i < |tokens| && 0 <= j < |tokens| && i != j &&
      tokens[i].client == c && tokens[j].client == c && tokens[i].access == token && tokens[j].refresh == token
  }

  /** No row's access token is a row's refresh token, as with signed access tokens and hexadecimal refresh tokens. */
  ghost predicate DisjointColumns(tokens: seq<Token>) {
    forall i, j :: 0 <= i < |tokens| && 0 <= j < |tokens| ==> tokens[i].access != tokens[j].refresh
  }

  /** Two rows match one token exactly when it stands in both columns. */
  lemma TwoMatchesIff(tokens: seq<Token>, token: nat, c: nat)
    requires UniqueTokens(tokens)
    ensures InBothColumns(tokens, token, c) <==>
      exists i, j :: 0 <= i < j < |tokens| && Matches(tokens[i], token, c) && Matches(tokens[j], token, c)
  {
    if InBothColumns(tokens, token, c) {
      var i, j :| 0 <= i < |tokens| && 0 <= j < |tokens| && i != j &&
        tokens[i].client == c && tokens[j].client == c && tokens[i].access == token && tokens[j].refresh == token;
      var a, b := if i < j then i else j, if i < j then j else i;
      assert Matches(tokens[a], token, c) && Matches(tokens[b], token, c);
    }
    if i, j :| 0 <= i < j < |tokens| && Matches(tokens[i], token, c) && Matches(tokens[j], token, c) {
      var a, b := if tokens[i].access == token then i else j, if tokens[i].access == token then j else i;
      assert tokens[a].access == token && tokens[b].refresh == token;
    }
  }

  /** Removing one matching row, whichever it is, ends the token if and only if it did not stand in both columns. */
  lemma RevokedForGoodIff(tokens: seq<Token>, token: nat, c: nat, i: nat)
    requires UniqueTokens(tokens) && i < |tokens| && Matches(tokens[i], token, c)
    ensures (forall t :: t in RemoveAt(tokens, i) ==> !Matches(t, token, c)) <==> !InBothColumns(tokens, token, c)
  {
    TwoMatchesIff(tokens, token, c);
    var rest := RemoveAt(tokens, i);
    if t :| t in rest && Matches(t, token, c) {
      var k :| 0 <= k < |rest| && rest[k] == t;
      var j := if k < i then k else k + 1;
      assert tokens[j] == t && j != i;
    }
    if a, b :| 0 <= a < b < |tokens| && Matches(tokens[a], token, c) && Matches(tokens[b], token, c) {
      var j := if a == i then b else a;
      assert rest[if j < i then j else j - 1] == tokens[j];
    }
  }

  class OAuthService {
    var clients: seq<Client>
    var tokens: seq<Token>

    constructor (clients: seq<Client>, tokens: seq<Token>)
      ensures this.clients == clients && this.tokens == tokens
    {
      this.clients, this.tokens := clients, tokens;
    }

    method FindClient(clientId: nat) returns (client: Option<Client>)
      ensures client.Some? ==> client.value in clients && client.value.clientId == clientId
      ensures client.None? <==> !Registered(clients, clientId)
    {
      client := None;
      for i := 0 to |clients|
        invariant forall j :: 0 <= j < i ==> clients[j].clientId != clientId
      {
        if clients[i].clientId == clientId {
          return Some(clients[i]);
        }
      }
    }

    /** An unknown token is not an error; a known one loses exactly one row. */
    method RevokeToken(clientId: nat, secret: nat, token: nat) returns (r: Revocation)
      modifies this`tokens
      ensures r.ClientNotFound? <==> !Registered(clients, clientId)
      ensures !r.Done? ==> tokens == old(tokens)
      ensures r.Done? && (forall t :: t in old(tokens) ==> !Matches(t, token, clientId)) ==> tokens == old(tokens)
      ensures r.Done? && (exists t :: t in old(tokens) && Matches(t, token, clientId)) ==>
        exists i: nat :: i < |old(tokens)| && Matches(old(tokens)[i], token, clientId) &&
          tokens == RemoveAt(old(tokens), i)
      ensures r.Done? && UniqueTokens(old(tokens)) && DisjointColumns(old(tokens)) ==>
        forall t :: t in tokens ==> !Matches(t, token, clientId)
      ensures UniqueIds(clients) && Registered(clients, clientId) ==>
        forall c :: c in clients && c.clientId == clientId ==> (r.Done? <==> c.secret == secret)
    {
      var client := FindClient(clientId);
      if client.None? {
        return ClientNotFound;
      }
      if client.value.secret != secret {
        return InvalidSecret;
      }
      for i := 0 to |tokens|
        invariant tokens == old(tokens)
        invariant forall j :: 0 <= j < i ==> !Matches(tokens[j], token, clientId)
      {
        if Matches(tokens[i], token, clientId) {
          if UniqueTokens(tokens) {
            RevokedForGoodIff(tokens, token, clientId, i);
          }
          tokens := RemoveAt(tokens, i);
          return Done;
        }
      }
      r := Done;
    }

    method RevokeAuthorizedClient(u: nat, c: nat)
      modifies this`tokens
      ensures tokens == Without(old(tokens), u, c)
      ensures forall t :: multiset(tokens)[t] == if t.user == u && t.client == c then 0 else multiset(old(tokens))[t]
      ensures forall now, decode ::
        Listing(clients, tokens, u, now, decode) == DropClient(Listing(clients, old(tokens), u, now, decode), c)
      ensures forall v, now, decode :: v != u ==>
        Listing(clients, tokens, v, now, decode) == Listing(clients, old(tokens), v, now, decode)
    {
      ghost var before := tokens;
      WithoutKeepsOthers(tokens, u, c);
      tokens := Filter(tokens, (t: Token) => !HeldBy(u, c)(t));
      forall now, decode: nat -> seq<nat>
        ensures Listing(clients, tokens, u, now, decode) == DropClient(Listing(clients, before, u, now, decode), c)
      {
        RevokeDropsEntry(clients, before, u, c, now, decode);
      }
      forall v, now, decode: nat -> seq<nat> | v != u
        ensures Listing(clients, tokens, v, now, decode) == Listing(clients, before, v, now, decode)
      {
        RevokeLeavesOthers(clients, before, u, c, v, now, decode);
      }
    }

    /** `payload` is what the signature check yields: the scopes in the token, or None when it fails. */
    method VerifyTokenScope(access: nat, payload: Option<seq<nat>>, scope: nat, now: nat) returns (g: Grant)
      ensures g.Granted? ==>
        exists t :: t in tokens && t.access == access && now <= t.expiresAt && (t.user, t.client) == (g.user, g.client)
      ensures forall t :: t in tokens && t.access == access && UniqueTokens(tokens) ==>
        && (g.Granted? <==> now <= t.expiresAt && payload.Some? && scope in payload.value)
        && (g.MissingScope? <==> now <= t.expiresAt && payload.Some? && scope !in payload.value)
      ensures g.Granted? ==> payload.Some? && scope in payload.value
      ensures (forall t :: t in tokens ==> t.access != access) ==> g.InvalidToken?
    {
      for i := 0 to |tokens|
        invariant forall j :: 0 <= j < i ==> tokens[j].access != access
      {
        if tokens[i].access == access {
          if tokens[i].expiresAt < now || payload.None? {
            return InvalidToken;
          }
          if scope !in payload.value {
            return MissingScope;
          }
          return Granted(tokens[i].user, tokens[i].client);
        }
      }
      g := InvalidToken;
    }
  }
}
