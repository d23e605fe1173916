/** OAuth consumers (API keys) of the Bitbucket 1.0 API: recognising a
    consumer document, its link templates, and the URL-encoded form body that
    creating or updating a consumer sends. */
module Consumer {
  import opened Runtime
  import opened Json
  import opened UriTemplate

  /** The values of the `PermissionScope` enumeration, in declaration order. */
  const PERMISSION_SCOPES: seq<string> := [
    "email",
    "account", "account:write",
    "team", "team:write",
    "repository", "repository:write", "repository:admin",
    "pullrequest", "pullrequest:write",
    "issue", "issue:write",
    "wiki",
    "snippet", "snippet:write",
    "webhook"
  ]

  predicate IsPermissionScope(s: string) {
    s in PERMISSION_SCOPES
  }

  /** A form field: a (name, value) pair of the URL-encoded body. */
  type Pair = (string, string)

  /** Recognition: id, name, secret and key are all present and not null. */
  function IsType(data: seq<Member>): (r: bool)
    ensures r <==> HasNonNull(data, "id") && HasNonNull(data, "name") &&
                   HasNonNull(data, "secret") && HasNonNull(data, "key")
  {
    GetOrNull(data, "id") != JNull && GetOrNull(data, "name") != JNull &&
    GetOrNull(data, "secret") != JNull && GetOrNull(data, "key") != JNull
  }

  const SELF_TEMPLATE := "{+bitbucket_url}/1.0/users{/username}/consumers{/consumer_id}"
  const OWNER_TEMPLATE := "{+bitbucket_url}/1.0/users{/username}"
  const CONSUMERS_TEMPLATE := "{+bitbucket_url}/1.0/users{/username}/consumers"

  /** The parsed `links_json` document of the class. */
  const LINKS_DOCUMENT: Json :=
    JObject([Member("_links", JObject([
      Member("self", JObject([Member("href", JStr(SELF_TEMPLATE))])),
      Member("owner", JObject([Member("href", JStr(OWNER_TEMPLATE))])),
      Member("consumers", JObject([Member("href", JStr(CONSUMERS_TEMPLATE))]))
    ]))])

  /** `doc.get('_links', {}).get(name, {}).get('href')`. */
  function LinkHref(doc: Json, name: string): Result<Json> {
    var links :- DictGet(doc, "_links", JObject([]));
    var entry :- DictGet(links, name, JObject([]));
    DictGet(entry, "href", JNull)
  }

  lemma LinkLookup(name: string)
    ensures Get(LINKS_DOCUMENT.members, "_links") == Some(LINKS_DOCUMENT.members[0].value)
    ensures var lm := LINKS_DOCUMENT.members[0].value.members;
            && (name == "self" ==> Get(lm, name) == Some(lm[0].value))
            && (name == "owner" ==> Get(lm, name) == Some(lm[1].value))
            && (name == "consumers" ==> Get(lm, name) == Some(lm[2].value))
            && (name != "self" && name != "owner" && name != "consumers" ==> Get(lm, name) == None)
    ensures forall i :: 0 <= i < 3 ==>
              var em := LINKS_DOCUMENT.members[0].value.members[i].value.members;
              Get(em, "href") == Some(em[0].value)
  {
    var lm := LINKS_DOCUMENT.members[0].value.members;
    GetDistinct(LINKS_DOCUMENT.members, 0);
    assert DistinctKeys(lm);
    GetDistinct(lm, 0);
    GetDistinct(lm, 1);
    GetDistinct(lm, 2);
    GetSpec(lm, name);
    forall i | 0 <= i < 3
      ensures var em := lm[i].value.members; Get(em, "href") == Some(em[0].value)
    {
      GetDistinct(lm[i].value.members, 0);
    }
  }

  /** `get_link(name)`: the template of one of the three links, and `None`
      for any other name; the lookup never raises. */
  function GetLink(name: string): (r: Json)
    ensures LinkHref(LINKS_DOCUMENT, name).Success?
    ensures name == "self" ==> r == JStr(SELF_TEMPLATE)
    ensures name == "owner" ==> r == JStr(OWNER_TEMPLATE)
    ensures name == "consumers" ==> r == JStr(CONSUMERS_TEMPLATE)
    ensures name != "self" && name != "owner" && name != "consumers" ==> r == JNull
  {
    LinkLookup(name);
    match LinkHref(LINKS_DOCUMENT, name)
    case Success(template) => template
    case Failure(_) => JNull
  }

  /** The first scope that is not a permission scope, if any: the one whose
      validation raises. */
  function FirstInvalid(scopes: seq<string>): (r: Option<string>)
    ensures r.None? <==> forall i :: 0 <= i < |scopes| ==> IsPermissionScope(scopes[i])
    ensures r.Some? ==> exists i :: 0 <= i < |scopes| && scopes[i] == r.value &&
                                    !IsPermissionScope(scopes[i]) &&
                                    forall j :: 0 <= j < i ==> IsPermissionScope(scopes[j])
  {
    if |scopes| == 0 then None
    else if !IsPermissionScope(scopes[0]) then Some(scopes[0])
    else
      var r := FirstInvalid(scopes[1..]);
      assert forall i :: 0 <= i < |scopes| - 1 ==> scopes[1..][i] == scopes[i + 1];
      r
  }

  /** One optional field: sent only when its argument is not `None`. */
  function Field(name: string, arg: Option<string>): seq<Pair> {
    if arg.Some? then [(name, arg.value)] else []
  }

  /** One `scope` field per scope, in input order. */
  function ScopePairs(scopes: seq<string>): seq<Pair> {
    seq(|scopes|, i requires 0 <= i < |scopes| => ("scope", scopes[i]))
  }

  /** The form body `Consumer.payload` returns, or the exception it raises
      for the first scope outside the enumeration. */
  function FormPayload(name: Option<string>, scopes: Option<seq<string>>,
                       description: Option<string>, url: Option<string>,
                       callbackUrl: Option<string>): Result<seq<Pair>>
  {
    if scopes.Some? && FirstInvalid(scopes.value).Some? then
      Failure(InvalidValue(FirstInvalid(scopes.value).value))
    else
      Success(Field("name", name) + ScopePairs(scopes.GetOr([])) + Field("description", description) +
              Field("url", url) + Field("callback_url", callbackUrl))
  }

  /** A scope that is invalid after valid ones is the first invalid scope. */
  lemma {:induction false} FirstInvalidAt(scopes: seq<string>, i: int)
    requires 0 <= i < |scopes| && !IsPermissionScope(scopes[i])
    requires forall j :: 0 <= j < i ==> IsPermissionScope(scopes[j])
    ensures FirstInvalid(scopes) == Some(scopes[i])
  {
    if i > 0 {
      assert IsPermissionScope(scopes[0]);
      assert forall j :: 0 <= j < i - 1 ==> scopes[1..][j] == scopes[j + 1];
      FirstInvalidAt(scopes[1..], i - 1);
    }
  }

  /** `[PermissionScope.expect_valid_value(s) for s in scopes]`: validates
      the scopes in order, stopping at the first invalid one. */
  method ValidateScopes(scopes: seq<string>) returns (bad: Option<string>)
    ensures bad == FirstInvalid(scopes)
  {
    var i := 0;
    while i < |scopes|
      invariant 0 <= i <= |scopes|
      invariant forall j :: 0 <= j < i ==> IsPermissionScope(scopes[j])
    {
      if !IsPermissionScope(scopes[i]) {
        FirstInvalidAt(scopes, i);
        return Some(scopes[i]);
      }
      i := i + 1;
    }
    return None;
  }

  /** `[payload.append(('scope', s)) for s in scopes]`. */
  method AppendScopes(payload: seq<Pair>, scopes: seq<string>) returns (r: seq<Pair>)
    ensures r == payload + ScopePairs(scopes)
  {
    r := payload;
    var i := 0;
    while i < |scopes|
      invariant 0 <= i <= |scopes|
      invariant r == payload + ScopePairs(scopes[..i])
    {
      assert ScopePairs(scopes[..i + 1]) == ScopePairs(scopes[..i]) + [("scope", scopes[i])];
      r := r + [("scope", scopes[i])];
      i := i + 1;
    }
    assert scopes[..i] == scopes;
  }

  /** `Consumer.payload`: appends the fields one by one, validating every
      scope before any scope pair is appended. */
  method Payload(name: Option<string>, scopes: Option<seq<string>>,
                 description: Option<string>, url: Option<string>,
                 callbackUrl: Option<string>) returns (r: Result<seq<Pair>>)
    ensures r == FormPayload(name, scopes, description, url, callbackUrl)
  {
    var payload: seq<Pair> := [];
    if name.Some? {
      payload := payload + [("name", name.value)];
    }
    if scopes.Some? {
      var bad := ValidateScopes(scopes.value);
      if bad.Some? {
        return Failure(InvalidValue(bad.value));
      }
      payload := AppendScopes(payload, scopes.value);
    } else {
      assert ScopePairs([]) == [];
    }
    ghost var scoped := payload;
    assert scoped == Field("name", name) + ScopePairs(scopes.GetOr([]));
    if description.Some? {
      payload := payload + [("description", description.value)];
    }
    ghost var described := payload;
    assert described == scoped + Field("description", description);
    if url.Some? {
      payload := payload + [("url", url.value)];
    }
    assert payload == described + Field("url", url);
    if callbackUrl.Some? {
      payload := payload + [("callback_url", callbackUrl.value)];
    }
    assert payload == described + Field("url", url) + Field("callback_url", callbackUrl);
    return Success(payload);
  }

  /** `Consumer.create`: the endpoint it posts to (the `consumers` template
      expanded with the client's base URL and user name) and the form body,
      which is `payload` of its arguments. */
  method Create(name: string, scopes: seq<string>, description: Option<string>,
                url: Option<string>, callbackUrl: Option<string>,
                bitbucketUrl: string, username: string, expand: Expander)
    returns (postUrl: string, body: Result<seq<Pair>>)
    ensures postUrl == expand(CONSUMERS_TEMPLATE, map["bitbucket_url" := bitbucketUrl, "username" := username])
    ensures body == FormPayload(Some(name), Some(scopes), description, url, callbackUrl)
  {
    var template := GetLink("consumers");
    postUrl := expand(template.s, map["bitbucket_url" := bitbucketUrl, "username" := username]);
    body := Payload(Some(name), Some(scopes), description, url, callbackUrl);
  }

  /** `Consumer.update`: the form body it puts is `payload` of exactly its
      five arguments. */
  method Update(name: Option<string>, scopes: Option<seq<string>>,
                description: Option<string>, url: Option<string>,
                callbackUrl: Option<string>) returns (body: Result<seq<Pair>>)
    ensures body == FormPayload(name, scopes, description, url, callbackUrl)
  {
    body := Payload(name, scopes, description, url, callbackUrl);
  }

  /** The `{'href': url}` object of an expanded link. */
  function HrefObject(url: string): Json {
    JObject([Member("href", JStr(url))])
  }

  /** The links map `expand_link_urls` builds from the (name, template)
      pairs of `links_from`: each name maps to its expanded template, a later
      pair with the same name replacing an earlier one. */
  function ExpandedLinks(links: seq<(string, string)>, vars: map<string, string>,
                         expand: Expander): map<string, Json>
    decreases |links|
  {
    if |links| == 0 then map[]
    else
      var (name, template) := links[|links| - 1];
      ExpandedLinks(links[..|links| - 1], vars, expand)[name := HrefObject(expand(template, vars))]
  }

  /** `Consumer.expand_link_urls`: updates the map once per link. */
  method ExpandLinkUrls(links: seq<(string, string)>, vars: map<string, string>, expand: Expander)
    returns (payload: map<string, Json>)
    ensures payload == ExpandedLinks(links, vars, expand)
  {
    payload := map[];
    var i := 0;
    while i < |links|
      invariant 0 <= i <= |links|
      invariant payload == ExpandedLinks(links[..i], vars, expand)
    {
      var (name, template) := links[i];
      assert links[..i + 1][..i] == links[..i];
      payload := payload[name := HrefObject(expand(template, vars))];
      i := i + 1;
    }
    assert links[..i] == links;
  }

  /** Every name of `links_from` is in the expanded map, and nothing else is. */
  lemma {:induction false} ExpandedLinksKeys(links: seq<(string, string)>, vars: map<string, string>,
                                             expand: Expander, name: string)
    ensures name in ExpandedLinks(links, vars, expand) <==> exists i :: 0 <= i < |links| && links[i].0 == name
  {
    if |links| > 0 {
      var front := links[..|links| - 1];
      ExpandedLinksKeys(front, vars, expand, name);
      assert forall i :: 0 <= i < |front| ==> front[i] == links[i];
    }
  }

  /** Each name maps to the `{'href': url}` of its last template, expanded. */
  lemma {:induction false} ExpandedLinksAt(links: seq<(string, string)>, vars: map<string, string>,
                                           expand: Expander, i: int)
    requires 0 <= i < |links| && forall j :: i < j < |links| ==> links[j].0 != links[i].0
    ensures links[i].0 in ExpandedLinks(links, vars, expand)
    ensures ExpandedLinks(links, vars, expand)[links[i].0] == HrefObject(expand(links[i].1, vars))
  {
    if i < |links| - 1 {
      var front := links[..|links| - 1];
      assert forall j :: 0 <= j < |front| ==> front[j] == links[j];
      ExpandedLinksAt(front, vars, expand, i);
    }
  }

  /** The values sent under one field name, in order. */
  function ValuesOf(pairs: seq<Pair>, name: string): seq<string> {
    if |pairs| == 0 then []
    else (if pairs[0].0 == name then [pairs[0].1] else []) + ValuesOf(pairs[1..], name)
  }

  lemma {:induction false} ValuesOfAppend(a: seq<Pair>, b: seq<Pair>, name: string)
    ensures ValuesOf(a + b, name) == ValuesOf(a, name) + ValuesOf(b, name)
  {
    if |a| == 0 {
      assert a + b == b;
    } else {
      assert (a + b)[0] == a[0];
      assert (a + b)[1..] == a[1..] + b;
      ValuesOfAppend(a[1..], b, name);
    }
  }

  lemma {:induction false} ValuesOfScopes(scopes: seq<string>, name: string)
    ensures ValuesOf(ScopePairs(scopes), name) == if name == "scope" then scopes else []
  {
    if |scopes| > 0 {
      assert ScopePairs(scopes)[1..] == ScopePairs(scopes[1..]);
      ValuesOfScopes(scopes[1..], name);
    }
  }

  /** The sequence holding an argument's value when it is not `None`. */
  function Present(arg: Option<string>): seq<string> {
    if arg.Some? then [arg.value] else []
  }

  /** With every argument `None` the body is empty. */
  lemma PayloadAllNone()
    ensures FormPayload(None, None, None, None, None) == Success([])
  {
    var none: Option<string> := None;
    var noScopes: Option<seq<string>> := None;
    assert ScopePairs(noScopes.GetOr([])) == [];
    assert Field("name", none) + ScopePairs(noScopes.GetOr([])) + Field("description", none) == [];
  }

  /** The body is rejected exactly when some scope is not a permission
      scope, and the exception names the first such scope. */
  lemma PayloadRejects(name: Option<string>, scopes: Option<seq<string>>,
                       description: Option<string>, url: Option<string>, callbackUrl: Option<string>)
    ensures FormPayload(name, scopes, description, url, callbackUrl).Failure? <==>
              scopes.Some? && exists s :: s in scopes.value && !IsPermissionScope(s)
    ensures FormPayload(name, scopes, description, url, callbackUrl).Failure? ==>
              exists i :: 0 <= i < |scopes.value| &&
                          FormPayload(name, scopes, description, url, callbackUrl).error == InvalidValue(scopes.value[i]) &&
                          !IsPermissionScope(scopes.value[i]) &&
                          forall j :: 0 <= j < i ==> IsPermissionScope(scopes.value[j])
  {
  }

  lemma ValuesOfField(field: string, arg: Option<string>, name: string)
    ensures ValuesOf(Field(field, arg), name) == if name == field then Present(arg) else []
  {
    if arg.Some? {
      assert Field(field, arg)[1..] == [];
    }
  }

  /** The values of one field name in the body, field group by field group. */
  lemma {:induction false} PayloadValuesOf(name: Option<string>, scopes: Option<seq<string>>,
                                           description: Option<string>, url: Option<string>,
                                           callbackUrl: Option<string>, k: string)
    requires FormPayload(name, scopes, description, url, callbackUrl).Success?
    ensures ValuesOf(FormPayload(name, scopes, description, url, callbackUrl).value, k) ==
              ValuesOf(Field("name", name), k) + ValuesOf(ScopePairs(scopes.GetOr([])), k) +
              ValuesOf(Field("description", description), k) + ValuesOf(Field("url", url), k) +
              ValuesOf(Field("callback_url", callbackUrl), k)
  {
    var a := Field("name", name);
    var b := ScopePairs(scopes.GetOr([]));
    var c := Field("description", description);
    var d := Field("url", url);
    var e := Field("callback_url", callbackUrl);
    ValuesOfAppend(a + b + c + d, e, k);
    ValuesOfAppend(a + b + c, d, k);
    ValuesOfAppend(a + b, c, k);
    ValuesOfAppend(a, b, k);
  }

  /** A field is sent iff its argument is not `None`, once, with the
      argument's value; there is one `scope` field per scope, in input
      order. */
  lemma PayloadFields(name: Option<string>, scopes: Option<seq<string>>,
                      description: Option<string>, url: Option<string>, callbackUrl: Option<string>)
    requires FormPayload(name, scopes, description, url, callbackUrl).Success?
    ensures var body := FormPayload(name, scopes, description, url, callbackUrl).value;
            && ValuesOf(body, "name") == Present(name)
            && ValuesOf(body, "scope") == scopes.GetOr([])
            && ValuesOf(body, "description") == Present(description)
            && ValuesOf(body, "url") == Present(url)
            && ValuesOf(body, "callback_url") == Present(callbackUrl)
  {
    var body := FormPayload(name, scopes, description, url, callbackUrl).value;
    var empty: seq<string> := [];
    FieldValues(name, scopes, description, url, callbackUrl, "name");
    assert ValuesOf(body, "name") == Present(name) + empty + empty + empty + empty;
    FieldValues(name, scopes, description, url, callbackUrl, "scope");
    assert ValuesOf(body, "scope") == empty + scopes.GetOr([]) + empty + empty + empty;
    FieldValues(name, scopes, description, url, callbackUrl, "description");
    assert ValuesOf(body, "description") == empty + empty + Present(description) + empty + empty;
    FieldValues(name, scopes, description, url, callbackUrl, "url");
    assert ValuesOf(body, "url") == empty + empty + empty + Present(url) + empty;
    FieldValues(name, scopes, description, url, callbackUrl, "callback_url");
    assert ValuesOf(body, "callback_url") == empty + empty + empty + empty + Present(callbackUrl);
  }

  lemma FieldValues(name: Option<string>, scopes: Option<seq<string>>,
                    description: Option<string>, url: Option<string>,
                    callbackUrl: Option<string>, k: string)
    requires FormPayload(name, scopes, description, url, callbackUrl).Success?
    ensures ValuesOf(FormPayload(name, scopes, description, url, callbackUrl).value, k) ==
              (if k == "name" then Present(name) else []) +
              (if k == "scope" then scopes.GetOr([]) else []) +
              (if k == "description" then Present(description) else []) +
              (if k == "url" then Present(url) else []) +
              (if k == "callback_url" then Present(callbackUrl) else [])
  {
    PayloadValuesOf(name, scopes, description, url, callbackUrl, k);
    ValuesOfScopes(scopes.GetOr([]), k);
    ValuesOfField("name", name, k);
    ValuesOfField("description", description, k);
    ValuesOfField("url", url, k);
    ValuesOfField("callback_url", callbackUrl, k);
  }

  /** The position class of a field name in the body. */
  function Rank(name: string): int {
    if name == "name" then 0
    else if name == "scope" then 1
    else if name == "description" then 2
    else if name == "url" then 3
    else 4
  }

  /** The fields come in the fixed order name, scopes, description, url,
      callback_url. */
  lemma PayloadOrder(name: Option<string>, scopes: Option<seq<string>>,
                     description: Option<string>, url: Option<string>, callbackUrl: Option<string>)
    requires FormPayload(name, scopes, description, url, callbackUrl).Success?
    ensures var body := FormPayload(name, scopes, description, url, callbackUrl).value;
            forall i, j :: 0 <= i < j < |body| ==> Rank(body[i].0) <= Rank(body[j].0)
  {
    var body := FormPayload(name, scopes, description, url, callbackUrl).value;
    var n := |Field("name", name)|;
    var m := n + |scopes.GetOr([])|;
    forall i | 0 <= i < |body|
      ensures Rank(body[i].0) == if i < n then 0 else if i < m then 1 else Rank(body[i].0)
    {
    }
  }
}
