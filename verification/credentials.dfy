/** Resolving the kubeconfig the cluster client is built from (HelmDeploymentCommand.getKubeConfigContent). */
module Credentials {
  import opened HelmModel

  /** Java's Character.isWhitespace: the space separators except the no-break ones, the line and
      paragraph separators, and the control characters tab to carriage return and 0x1C to 0x1F. */
  predicate IsJavaWhitespace(c: char)
  {
    || c == ' '
    || '\t' <= c <= '\r'
    || '\U{1C}' <= c <= '\U{1F}'
    || c == '\U{1680}'
    || '\U{2000}' <= c <= '\U{2006}'
    || '\U{2008}' <= c <= '\U{200A}'
    || c == '\U{2028}' || c == '\U{2029}' || c == '\U{205F}' || c == '\U{3000}'
  }

  /** StringUtils.isBlank: null, empty, or whitespace only. */
  predicate IsBlank(s: Option<string>)
  {
    s.None? || forall i :: 0 <= i < |s.value| ==> IsJavaWhitespace(s.value[i])
  }

  predicate HasCredential(store: seq<Credential>, id: string)
  {
    exists i :: 0 <= i < |store| && store[i].id == id
  }

  /** `i` is the position of the first credential in `store` whose id is exactly `id`. */
  predicate IsFirstWithId(store: seq<Credential>, id: string, i: int)
  {
    && 0 <= i < |store|
    && store[i].id == id
    && forall j :: 0 <= j < i ==> store[j].id != id
  }

  /** The first-match policy of the credential matcher: the earliest credential with that id. */
  function FirstWithId(store: seq<Credential>, id: string): (r: Option<nat>)
    ensures r.Some? ==> IsFirstWithId(store, id, r.value)
    ensures r.None? <==> !HasCredential(store, id)
  {
    if |store| == 0 then None
    else if store[0].id == id then Some(0)
    else
      match FirstWithId(store[1..], id)
      case None => None
      case Some(k) => Some(k + 1)
  }

  /** The three results of resolving a kubeconfig id: no id (use the ambient configuration), the
      content of the matching credential, or no match (an IllegalArgumentException naming the id). */
  datatype KubeConfig = Ambient | Content(text: string) | NotFound(id: string)

  function KubeConfigContent(configId: Option<string>, store: seq<Credential>): (r: KubeConfig)
    ensures r.Ambient? <==> IsBlank(configId)
    ensures r.NotFound? <==> !IsBlank(configId) && !HasCredential(store, configId.value)
    ensures r.NotFound? ==> r.id == configId.value
    ensures r.Content? ==>
      exists i :: IsFirstWithId(store, configId.value, i) && r.text == store[i].content
  {
    if IsBlank(configId) then Ambient
    else
      match FirstWithId(store, configId.value)
      case None => NotFound(configId.value)
      case Some(i) => Content(store[i].content)
  }

  /** The credentials whose id is exactly `id`, in store order. */
  function Matching(store: seq<Credential>, id: string): seq<Credential>
  {
    if |store| == 0 then []
    else (if store[0].id == id then [store[0]] else []) + Matching(store[1..], id)
  }

  /** Resolution agrees with filtering the store by id and taking the head of what remains. */
  lemma {:induction false} KubeConfigViaMatching(configId: Option<string>, store: seq<Credential>)
    requires !IsBlank(configId)
    ensures var m := Matching(store, configId.value);
      KubeConfigContent(configId, store) == if m == [] then NotFound(configId.value) else Content(m[0].content)
  {
    FirstMatchIsHeadOfMatching(store, configId.value);
  }

  lemma {:induction false} FirstMatchIsHeadOfMatching(store: seq<Credential>, id: string)
    ensures var m := Matching(store, id);
      match FirstWithId(store, id)
      case None => m == []
      case Some(i) => m != [] && m[0] == store[i]
  {
    if |store| > 0 && store[0].id != id {
      FirstMatchIsHeadOfMatching(store[1..], id);
    }
  }
}
