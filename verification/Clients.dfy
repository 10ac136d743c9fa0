/** Per-client configuration and the checks made with it. */
module Clients {
  import opened Wrappers
  import opened Text

  datatype ClientConfig = ClientConfig(
    clientSecret: string, redirectURIs: seq<string>, allowedScopes: seq<string>)

  type Configs = map<string, ClientConfig>

  /** Clients without a configuration are public, and so are those without a secret. */
  predicate SecretAccepted(cs: Configs, clientId: string, secret: string) {
    clientId !in cs || cs[clientId].clientSecret == "" || secret == cs[clientId].clientSecret
  }

  predicate Confidential(cs: Configs, clientId: string) {
    clientId in cs && cs[clientId].clientSecret != ""
  }

  predicate RedirectAllowed(cs: Configs, clientId: string, redirectURI: string) {
    clientId !in cs || cs[clientId].redirectURIs == [] || redirectURI in cs[clientId].redirectURIs
  }

  /** No allowed scopes means no restriction. */
  predicate ScopeAllowed(cs: Configs, clientId: string, scope: string) {
    clientId !in cs || cs[clientId].allowedScopes == [] ||
    forall f :: f in Fields(scope) ==> f in cs[clientId].allowedScopes
  }

  lemma {:induction false} FieldsOfWord(w: string)
    requires w != "" && SpaceFree(w)
    ensures Fields(w) == [w]
  {
    var n := WordLength(w);
    assert n == |w|;
    assert w[..n] == w && Fields(w[n..]) == [];
  }

  /** Some scope that contains a given word passes the check if and only if the word is inside one of
      the allowed entries that are words themselves. */
  lemma WordPassesIff(cs: Configs, clientId: string, w: string)
    requires w != "" && SpaceFree(w)
    requires clientId in cs && cs[clientId].allowedScopes != []
    ensures (exists scope :: ScopeAllowed(cs, clientId, scope) && Contains(scope, w)) <==>
              exists a :: a in cs[clientId].allowedScopes && SpaceFree(a) && Contains(a, w)
  {
    forall scope | ScopeAllowed(cs, clientId, scope) && Contains(scope, w)
      ensures exists a :: a in cs[clientId].allowedScopes && SpaceFree(a) && Contains(a, w)
    {
      WordOccursInField(scope, w);
      var f :| f in Fields(scope) && Contains(f, w);
      FieldsAreWords(scope, f);
    }
    forall a | a in cs[clientId].allowedScopes && SpaceFree(a) && Contains(a, w)
      ensures ScopeAllowed(cs, clientId, a)
    {
      var i :| OccursAt(a, w, i);
      FieldsOfWord(a);
    }
  }

  class Registry {
    var clients: Configs
    var requireSecretForCodes: bool

    constructor ()
      ensures clients == map[] && !requireSecretForCodes
    {
      clients, requireSecretForCodes := map[], false;
    }

    method Add(clientId: string, cfg: ClientConfig)
      modifies this`clients
      ensures clients == old(clients)[clientId := cfg]
    {
      clients := clients[clientId := cfg];
    }

    /** `parsed` is what the text `raw` holds, if it can be parsed; entries that are null in it are left out. */
    method LoadFromEnv(raw: string, parsed: Option<map<string, Option<ClientConfig>>>) returns (failed: bool)
      modifies this`clients
      ensures failed <==> raw != "" && parsed == None
      ensures raw == "" || failed ==> clients == old(clients)
      ensures raw != "" && !failed ==> forall id :: id in clients <==>
                id in old(clients) || (id in parsed.value && parsed.value[id].Some?)
      ensures raw != "" && !failed ==> forall id :: id in clients ==>
                clients[id] ==
                if id in parsed.value && parsed.value[id].Some? then parsed.value[id].value else old(clients)[id]
    {
      if raw == "" {
        return false;
      }
      if parsed == None {
        return true;
      }
      var m := parsed.value;
      var todo := m.Keys;
      while todo != {}
        invariant todo <= m.Keys
        invariant forall id :: id in clients <==> id in old(clients) || (id in m && id !in todo && m[id].Some?)
        invariant forall id :: id in clients ==>
                    clients[id] == if id in m && id !in todo && m[id].Some? then m[id].value else old(clients)[id]
        decreases |todo|
      {
        var id :| id in todo;
        todo := todo - {id};
        if m[id].Some? {
          clients := clients[id := m[id].value];
        }
      }
      failed := false;
    }

    method ValidateSecret(clientId: string, secret: string) returns (ok: bool)
      ensures ok <==> SecretAccepted(clients, clientId, secret)
      ensures ok <==> (clientId in clients && clients[clientId].clientSecret != "" ==>
                         secret == clients[clientId].clientSecret)
    {
      if clientId !in clients {
        return true;
      }
      if clients[clientId].clientSecret == "" {
        return true;
      }
      ok := secret == clients[clientId].clientSecret;
    }

    method IsConfidential(clientId: string) returns (ok: bool)
      ensures ok <==> Confidential(clients, clientId)
      ensures ok <==> clientId in clients && clients[clientId].clientSecret != ""
    {
      ok := clientId in clients && clients[clientId].clientSecret != "";
    }

    method ValidateRedirectURI(clientId: string, redirectURI: string) returns (ok: bool)
      ensures ok <==> RedirectAllowed(clients, clientId, redirectURI)
      ensures ok <==> (clientId in clients && clients[clientId].redirectURIs != [] ==>
                         exists i :: 0 <= i < |clients[clientId].redirectURIs|
                                     && clients[clientId].redirectURIs[i] == redirectURI)
    {
      if clientId !in clients || clients[clientId].redirectURIs == [] {
        return true;
      }
      var uris := clients[clientId].redirectURIs;
      for i := 0 to |uris|
        invariant redirectURI !in uris[..i]
      {
        if uris[i] == redirectURI {
          return true;
        }
        assert uris[..i + 1] == uris[..i] + [uris[i]];
      }
      assert uris[..|uris|] == uris;
      ok := false;
    }

    /** Collects the allowed scopes into a set, then looks for a requested one outside it. */
    method ValidateScope(clientId: string, requestedScope: string) returns (ok: bool)
      ensures ok <==> ScopeAllowed(clients, clientId, requestedScope)
      ensures ok <==> (clientId in clients && clients[clientId].allowedScopes != [] ==>
                         forall f :: f in Fields(requestedScope) ==> f in clients[clientId].allowedScopes)
    {
      if clientId !in clients || clients[clientId].allowedScopes == [] {
        return true;
      }
      var allowed := clients[clientId].allowedScopes;
      var requested := Fields(requestedScope);
      var allowedSet: set<string> := {};
      for i := 0 to |allowed|
        invariant forall s :: s in allowedSet <==> s in allowed[..i]
      {
        allowedSet := allowedSet + {allowed[i]};
        assert allowed[..i + 1] == allowed[..i] + [allowed[i]];
      }
      assert allowed[..|allowed|] == allowed;
      for i := 0 to |requested|
        invariant forall f :: f in requested[..i] ==> f in allowed
      {
        if requested[i] !in allowedSet {
          return false;
        }
        assert requested[..i + 1] == requested[..i] + [requested[i]];
      }
      assert requested[..|requested|] == requested;
      ok := true;
    }
  }
}
