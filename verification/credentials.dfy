/** The credential selector: which bearer token goes with a URL, and the
    `Authorization` header built from it (the `Bearer` form of section 2.1
    of RFC 6750). */
module Credentials {
  import opened Types

  const CivitaiPrefix: string := "https://civitai.com"
  const HuggingFacePrefix: string := "https://huggingface.co"
  const CivitaiVar: string := "CIVITAI_TOKEN"
  const HuggingFaceVar: string := "HUGGINGFACE_TOKEN"
  const AuthField: string := "Authorization"
  const BearerScheme: string := "Bearer "

  /** Python's `a or b` on optional strings. */
  function Or(a: Option<string>, b: Option<string>): Option<string> {
    if Truthy(a) then a else b
  }

  /** The key the download uses, stated rule by rule: a non-empty explicit key
      always wins; otherwise a CivitAI URL takes `CIVITAI_TOKEN`, a Hugging
      Face URL takes `HUGGINGFACE_TOKEN`, and any other URL keeps the explicit
      key as given. */
  function EffectiveKey(url: string, apiKey: Option<string>, env: Env): Option<string> {
    if Truthy(apiKey) then apiKey
    else if CivitaiPrefix <= url then EnvGet(env, CivitaiVar)
    else if HuggingFacePrefix <= url then EnvGet(env, HuggingFaceVar)
    else apiKey
  }

  /** The two host prefixes exclude each other. */
  lemma PrefixesDisjoint(url: string)
    ensures !(CivitaiPrefix <= url && HuggingFacePrefix <= url)
  {
    if CivitaiPrefix <= url {
      assert url[8] == CivitaiPrefix[8] == 'c' != HuggingFacePrefix[8];
    }
  }

  /** The rebinding of `api_key` as the download routine does it: two
      independent prefix tests, each falling back on its variable. */
  method SelectKey(url: string, apiKey: Option<string>, env: Env) returns (key: Option<string>)
    ensures key == EffectiveKey(url, apiKey, env)
  {
    PrefixesDisjoint(url);
    key := apiKey;
    if CivitaiPrefix <= url {
      key := Or(key, EnvGet(env, CivitaiVar));
    }
    if HuggingFacePrefix <= url {
      key := Or(key, EnvGet(env, HuggingFaceVar));
    }
  }

  /** The extra request headers: one `Authorization` field when the key is non-empty. */
  function AuthHeader(key: Option<string>): (h: Option<Headers>)
    ensures h.Some? <==> Truthy(key)
    ensures h.Some? ==> h.value.Keys == {AuthField} && BearerCredential(h.value) == key
  {
    if Truthy(key) then Some(map[AuthField := BearerScheme + key.value]) else None
  }

  /** Reads the token back out of an `Authorization: Bearer <token>` field. */
  function BearerCredential(h: Headers): (r: Option<string>)
    ensures r.Some? ==> AuthField in h && h[AuthField] == BearerScheme + r.value && r.value != ""
  {
    if AuthField in h && BearerScheme <= h[AuthField] && |h[AuthField]| > |BearerScheme|
    then Some(h[AuthField][|BearerScheme|..])
    else None
  }

  /** When a non-empty key is given explicitly, it is the one sent, for every URL
      and whatever the environment holds. */
  lemma ExplicitKeyWins(url: string, apiKey: Option<string>, env: Env)
    requires Truthy(apiKey)
    ensures AuthHeader(EffectiveKey(url, apiKey, env)) == Some(map[AuthField := BearerScheme + apiKey.value])
  {
  }

  /** An empty explicit key is treated exactly like no key at all. */
  lemma EmptyKeyIsNoKey(url: string, env: Env)
    ensures AuthHeader(EffectiveKey(url, Some(""), env)) == AuthHeader(EffectiveKey(url, None, env))
  {
  }

  /** Without an explicit key, the header carries the host's environment token
      (if non-empty) for the two known hosts, and nothing for any other URL. */
  lemma EnvironmentFallback(url: string, apiKey: Option<string>, env: Env)
    requires !Truthy(apiKey)
    ensures CivitaiPrefix <= url ==>
      AuthHeader(EffectiveKey(url, apiKey, env)) == AuthHeader(EnvGet(env, CivitaiVar))
    ensures HuggingFacePrefix <= url ==>
      AuthHeader(EffectiveKey(url, apiKey, env)) == AuthHeader(EnvGet(env, HuggingFaceVar))
    ensures !(CivitaiPrefix <= url) && !(HuggingFacePrefix <= url) ==>
      AuthHeader(EffectiveKey(url, apiKey, env)) == None
  {
    PrefixesDisjoint(url);
  }
}
