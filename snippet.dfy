/** Snippets: the role-based search, the body of a create request,
    recognising a snippet document, and the normalisation `Snippet.__init__`
    applies to the JSON it is built from. */
module Snippet {
  import opened Runtime
  import opened Json
  import opened UriTemplate
  import Links

  /** `Role.roles`. */
  const ROLES: seq<string> := ["owner", "contributor", "member"]

  /** The default role of `find_snippets_for_role`. */
  const DEFAULT_ROLE := "owner"

  const SNIPPETS_TEMPLATE := "https://{+bitbucket_url}/2.0/snippets{?role}"

  /** `find_snippets_for_role`: a role outside `Role.roles` raises
      `NameError` before any URL is built; otherwise the result is the URL
      whose pages are walked. */
  function FindSnippetsForRole(role: string, bitbucketUrl: string, expand: Expander): (r: Result<string>)
    ensures r.Failure? <==> role !in ROLES
    ensures r.Failure? ==> r.error == NameError("role '" + role + "' is not in [" + "owner|contributor|member" + "]")
    ensures r.Success? ==> r.value == expand(SNIPPETS_TEMPLATE, map["bitbucket_url" := bitbucketUrl, "role" := role])
  {
    RolesJoined();
    match CheckRole(role, ROLES)
    case Some(e) => Failure(e)
    case None => Success(expand(SNIPPETS_TEMPLATE, map["bitbucket_url" := bitbucketUrl, "role" := role]))
  }

  /** The roles as the error message lists them. */
  lemma RolesJoined()
    ensures Join(ROLES, "|") == "owner|contributor|member"
  {
    JoinThree("owner", "contributor", "member", "|");
  }

  /** The default role passes the role check. */
  lemma DefaultRoleAccepted(bitbucketUrl: string, expand: Expander)
    ensures FindSnippetsForRole(DEFAULT_ROLE, bitbucketUrl, expand).Success?
  {
  }

  /** `Snippet.make_payload`: a key is present exactly when its argument is
      not `None` (so `is_private=False` is sent), with the argument's value;
      no other key is ever present. */
  method MakePayload(isPrivate: Option<bool>, isUnlisted: Option<bool>,
                     title: Option<string>, scm: Option<string>)
    returns (payload: map<string, Json>)
    ensures payload.Keys <= {"is_private", "is_unlisted", "title", "scm"}
    ensures "is_private" in payload <==> isPrivate.Some?
    ensures "is_unlisted" in payload <==> isUnlisted.Some?
    ensures "title" in payload <==> title.Some?
    ensures "scm" in payload <==> scm.Some?
    ensures isPrivate.Some? ==> payload["is_private"] == JBool(isPrivate.value)
    ensures isUnlisted.Some? ==> payload["is_unlisted"] == JBool(isUnlisted.value)
    ensures title.Some? ==> payload["title"] == JStr(title.value)
    ensures scm.Some? ==> payload["scm"] == JStr(scm.value)
    ensures isPrivate.None? && isUnlisted.None? && title.None? && scm.None? ==> payload == map[]
  {
    payload := map[];
    if isPrivate.Some? {
      payload := payload["is_private" := JBool(isPrivate.value)];
    }
    if isUnlisted.Some? {
      payload := payload["is_unlisted" := JBool(isUnlisted.value)];
    }
    if title.Some? {
      payload := payload["title" := JStr(title.value)];
    }
    if scm.Some? {
      payload := payload["scm" := JStr(scm.value)];
    }
  }

  /** Recognition: `id` is truthy and `destination` is absent or falsy. */
  function IsType(data: seq<Member>): (r: bool)
    ensures r <==> HasTruthy(data, "id") && !HasTruthy(data, "destination")
  {
    Truthy(GetOrNull(data, "id")) && !Truthy(GetOrNull(data, "destination"))
  }

  // ---------------------------------------------------------------------
  // Boolean coercion of the `is_` fields

  /** A key starting with "is_". */
  predicate IsFlagKey(k: string) {
    |k| >= 3 && k[..3] == "is_"
  }

  /** `value in ('True', 'true')`: only those two strings are true; a JSON
      `true` (Python `True`) is not equal to either and becomes false. */
  function CoerceFlag(value: Json): Json {
    JBool(value == JStr("True") || value == JStr("true"))
  }

  /** The members of `data` after the coercion loop of `__init__`. */
  function Coerced(ms: seq<Member>): seq<Member> {
    seq(|ms|, i requires 0 <= i < |ms| =>
      if IsFlagKey(ms[i].key) then Member(ms[i].key, CoerceFlag(ms[i].value)) else ms[i])
  }

  /** A mutable Python dict. `Snippet.__init__` changes the very dict it is
      given, so the caller sees the coerced values too. */
  class JsonDict {
    var members: seq<Member>

    constructor (members: seq<Member>)
      ensures this.members == members
    {
      this.members := members;
    }
  }

  /** The coercion loop of `__init__`, in place: every key keeps its place,
      each `is_` value becomes a boolean and every other value is left as it
      was. */
  method CoerceFlags(data: JsonDict)
    modifies data
    ensures |data.members| == |old(data.members)|
    ensures forall i :: 0 <= i < |data.members| ==> data.members[i].key == old(data.members)[i].key
    ensures forall i :: 0 <= i < |data.members| && IsFlagKey(data.members[i].key) ==>
              data.members[i].value == JBool(old(data.members)[i].value in {JStr("True"), JStr("true")})
    ensures forall i :: 0 <= i < |data.members| && !IsFlagKey(data.members[i].key) ==>
              data.members[i].value == old(data.members)[i].value
    ensures data.members == Coerced(old(data.members))
  {
    var i := 0;
    while i < |data.members|
      invariant 0 <= i <= |data.members| == |old(data.members)|
      invariant forall j :: 0 <= j < i ==> data.members[j] == Coerced(old(data.members))[j]
      invariant forall j :: i <= j < |data.members| ==> data.members[j] == old(data.members)[j]
    {
      var m := data.members[i];
      if IsFlagKey(m.key) {
        data.members := data.members[i := Member(m.key, CoerceFlag(m.value))];
      }
      i := i + 1;
    }
  }

  /** Looked up as a dict, the coerced data has the same keys; an `is_` key
      holds true exactly when its raw value was "True" or "true" and false
      otherwise; every other key holds its raw value. */
  lemma {:induction false} CoercedGet(ms: seq<Member>, k: string)
    ensures Get(Coerced(ms), k).Some? <==> Get(ms, k).Some?
    ensures IsFlagKey(k) && Get(ms, k).Some? ==>
              Get(Coerced(ms), k) == Some(JBool(Get(ms, k).value == JStr("True") || Get(ms, k).value == JStr("true")))
    ensures !IsFlagKey(k) ==> Get(Coerced(ms), k) == Get(ms, k)
  {
    if |ms| > 0 {
      var front := ms[..|ms| - 1];
      assert Coerced(ms)[..|ms| - 1] == Coerced(front);
      CoercedGet(front, k);
    }
  }

  /** The quirk of the coercion: a real JSON `true` under an `is_` key
      becomes false. */
  lemma JsonTrueBecomesFalse(ms: seq<Member>, k: string)
    requires IsFlagKey(k) && Get(ms, k) == Some(JBool(true))
    ensures Get(Coerced(ms), k) == Some(JBool(false))
  {
    CoercedGet(ms, k);
  }

  // ---------------------------------------------------------------------
  // Links: the clone map and the relationships

  /** One entry of `{item['name']: item['href'] for item in body}`. Python 2
      evaluates the value of a dict comprehension before its key, so a
      missing `href` is reported before a missing `name`; a list or dict
      cannot be a key. */
  function CloneEntry(item: Json): Result<(Json, Json)> {
    var href :- Index(item, "href");
    var name :- Index(item, "name");
    if name.JArray? || name.JObject? then Failure(TypeError("unhashable type")) else Success((name, href))
  }

  /** The clone map of a sequence of items, a later item with the same name
      replacing an earlier one. */
  function CloneMap(items: seq<Json>): Result<map<Json, Json>>
    decreases |items|
  {
    if |items| == 0 then Success(map[])
    else
      var m :- CloneMap(items[..|items| - 1]);
      var entry :- CloneEntry(items[|items| - 1]);
      Success(m[entry.0 := entry.1])
  }

  /** The clone map of a `clone` link body. */
  function CloneOf(body: Json): Result<map<Json, Json>> {
    var items :- Iterated(body);
    CloneMap(items)
  }

  /** Item `i` is the last one named `name`. */
  ghost predicate LastNamed(items: seq<Json>, name: Json, i: int) {
    0 <= i < |items| && CloneEntry(items[i]).Success? && CloneEntry(items[i]).value.0 == name &&
    forall j :: i < j < |items| && CloneEntry(items[j]).Success? ==> CloneEntry(items[j]).value.0 != name
  }

  /** When the comprehension completes, every item has a name and an href. */
  lemma {:induction false} CloneMapEntries(items: seq<Json>)
    requires CloneMap(items).Success?
    ensures forall i :: 0 <= i < |items| ==> CloneEntry(items[i]).Success?
  {
    if |items| > 0 {
      var front := items[..|items| - 1];
      CloneMapEntries(front);
      assert forall i :: 0 <= i < |front| ==> front[i] == items[i];
    }
  }

  /** The clone map holds exactly the names of the items. */
  lemma {:induction false} CloneMapKeys(items: seq<Json>, name: Json)
    requires CloneMap(items).Success?
    ensures name in CloneMap(items).value <==>
              exists i :: 0 <= i < |items| && CloneEntry(items[i]).Success? && CloneEntry(items[i]).value.0 == name
  {
    if |items| > 0 {
      var front := items[..|items| - 1];
      CloneMapKeys(front, name);
      assert forall i :: 0 <= i < |front| ==> front[i] == items[i];
    }
  }

  /** Each name is mapped to the href of the last item with that name. */
  lemma {:induction false} CloneMapLast(items: seq<Json>, name: Json, i: int)
    requires CloneMap(items).Success?
    requires LastNamed(items, name, i)
    ensures name in CloneMap(items).value && CloneMap(items).value[name] == CloneEntry(items[i]).value.1
  {
    var front := items[..|items| - 1];
    if i < |front| {
      assert forall j :: 0 <= j < |front| ==> front[j] == items[j];
      assert LastNamed(front, name, i);
      CloneMapLast(front, name, i);
    }
  }

  /** What the links loop of `__init__` leaves: the `clone` attribute, if a
      clone link was seen, the relationship name to URL map, and whether the
      object's `client` attribute is no longer the client (a data field or a
      relationship named "client" replaced it). */
  datatype LinkView = LinkView(clone: Option<map<Json, Json>>, relationships: map<string, Json>,
                               clientShadowed: bool)

  /** `types.MethodType(f, None)`: a method needs an instance or a class. */
  const UNBOUND_METHOD := TypeError("unbound methods must have non-NULL im_class")

  /** One head of a relationship link, in the order the source evaluates it:
      `self.client.remote_relationship` (a replaced client has no such
      attribute), then `types.MethodType(..., url)` (a `None` URL leaves the
      method without instance or class), then `setattr` (the name must be
      ASCII). Binding the name "client" replaces the client. */
  function BindHead(view: LinkView, name: string, head: Member): Result<LinkView> {
    if view.clientShadowed then Failure(AttributeError("remote_relationship"))
    else if head.value == JNull then Failure(UNBOUND_METHOD)
    else if !IsAscii(name) then Failure(UnicodeEncodeError(name))
    else Success(view.(relationships := view.relationships[name := head.value], clientShadowed := name == "client"))
  }

  /** All heads of one link body, in order, stopping at the first that raises. */
  function BindHeads(view: LinkView, name: string, heads: seq<Member>): Result<LinkView>
    decreases |heads|
  {
    if |heads| == 0 then Success(view)
    else
      var v :- BindHeads(view, name, heads[..|heads| - 1]);
      BindHead(v, name, heads[|heads| - 1])
  }

  lemma {:induction false} BindHeadsPrefixFails(view: LinkView, name: string, heads: seq<Member>, n: nat)
    requires n <= |heads|
    requires BindHeads(view, name, heads[..n]).Failure?
    ensures BindHeads(view, name, heads) == BindHeads(view, name, heads[..n])
    decreases |heads|
  {
    if n < |heads| {
      var front := heads[..|heads| - 1];
      assert front[..n] == heads[..n];
      BindHeadsPrefixFails(view, name, front, n);
    } else {
      assert heads[..n] == heads;
    }
  }

  /** A non-empty body binds exactly when the client is still in place, the
      name is ASCII, no head is `null`, and a link named "client" has a
      single head (binding it replaces the client the next head needs). The
      name is then bound to the last head's URL. */
  lemma {:induction false} BindHeadsSpec(view: LinkView, name: string, heads: seq<Member>)
    requires |heads| > 0
    ensures BindHeads(view, name, heads).Success? <==>
              && !view.clientShadowed && IsAscii(name)
              && (forall h :: 0 <= h < |heads| ==> heads[h].value != JNull)
              && (name == "client" ==> |heads| == 1)
    ensures BindHeads(view, name, heads).Success? ==>
              BindHeads(view, name, heads).value ==
                view.(relationships := view.relationships[name := heads[|heads| - 1].value],
                      clientShadowed := name == "client")
  {
    var front := heads[..|heads| - 1];
    assert forall h :: 0 <= h < |front| ==> front[h] == heads[h];
    if |front| > 0 {
      BindHeadsSpec(view, name, front);
    }
  }

  /** One link of the loop: "clone" becomes the clone map, every other link
      binds its heads. */
  function Step(view: LinkView, link: Member): Result<LinkView> {
    if link.key == "clone" then
      var c :- CloneOf(link.value);
      Success(view.(clone := Some(c)))
    else if !link.value.JObject? then Failure(AttributeError("iteritems"))
    else BindHeads(view, link.key, link.value.members)
  }

  /** The whole links loop, in document order, stopping at the first link
      that raises. `clientShadowed` says whether a data field named "client"
      replaced the client before the loop. */
  function SnippetLinks(links: seq<Member>, clientShadowed: bool): Result<LinkView>
    decreases |links|
  {
    if |links| == 0 then Success(LinkView(None, map[], clientShadowed))
    else
      var view :- SnippetLinks(links[..|links| - 1], clientShadowed);
      Step(view, links[|links| - 1])
  }

  lemma {:induction false} SnippetLinksPrefixFails(links: seq<Member>, clientShadowed: bool, n: nat)
    requires n <= |links|
    requires SnippetLinks(links[..n], clientShadowed).Failure?
    ensures SnippetLinks(links, clientShadowed) == SnippetLinks(links[..n], clientShadowed)
    decreases |links|
  {
    if n < |links| {
      var front := links[..|links| - 1];
      assert front[..n] == links[..n];
      SnippetLinksPrefixFails(front, clientShadowed, n);
    } else {
      assert links[..n] == links;
    }
  }

  /** When the links loop completes: the relationships are those every link
      but "clone" binds (so "clone" is never a relationship), or none at all
      when the client was shadowed from the start; the clone attribute is the
      clone map of the "clone" link, present exactly when there is one. */
  lemma {:induction false} SnippetLinksParts(links: seq<Member>, clientShadowed: bool)
    requires SnippetLinks(links, clientShadowed).Success?
    ensures !clientShadowed ==>
              Links.RegisterAll(links, true) == Success(SnippetLinks(links, clientShadowed).value.relationships)
    ensures clientShadowed ==>
              SnippetLinks(links, clientShadowed).value.relationships == map[] &&
              SnippetLinks(links, clientShadowed).value.clientShadowed
    ensures "clone" !in SnippetLinks(links, clientShadowed).value.relationships
    ensures SnippetLinks(links, clientShadowed).value.clone.None? <==> Get(links, "clone").None?
    ensures Get(links, "clone").Some? ==>
              CloneOf(Get(links, "clone").value) == Success(SnippetLinks(links, clientShadowed).value.clone.value)
  {
    if |links| > 0 {
      var front := links[..|links| - 1];
      SnippetLinksParts(front, clientShadowed);
      var link := links[|links| - 1];
      if link.key != "clone" && |link.value.members| > 0 {
        BindHeadsSpec(SnippetLinks(front, clientShadowed).value, link.key, link.value.members);
      }
    }
  }

  /** Link `i` is a relationship link with at least one head. */
  ghost predicate Binds(links: seq<Member>, i: int) {
    0 <= i < |links| && links[i].key != "clone" && links[i].value.JObject? && |links[i].value.members| > 0
  }

  /** When the links loop completes: every head of a relationship link is a
      URL (not `null`) under an ASCII name; a "client" relationship has a
      single head and no relationship link with a head comes after it; with
      the client shadowed from the start no link has a head; and the client
      ends up replaced exactly when it was at the start or a "client" link
      was bound. */
  lemma {:induction false} SnippetLinksHeads(links: seq<Member>, clientShadowed: bool)
    requires SnippetLinks(links, clientShadowed).Success?
    ensures SnippetLinks(links, clientShadowed).value.clientShadowed <==>
              clientShadowed || exists i :: Binds(links, i) && links[i].key == "client"
    ensures clientShadowed ==> forall i :: !Binds(links, i)
    ensures forall i, h :: Binds(links, i) && 0 <= h < |links[i].value.members| ==>
              links[i].value.members[h].value != JNull
    ensures forall i :: Binds(links, i) ==> IsAscii(links[i].key)
    ensures forall i :: Binds(links, i) && links[i].key == "client" ==> |links[i].value.members| == 1
    ensures forall i, j :: i < j && Binds(links, i) && links[i].key == "client" ==> !Binds(links, j)
  {
    if |links| > 0 {
      var front := links[..|links| - 1];
      var last := |links| - 1;
      SnippetLinksHeads(front, clientShadowed);
      assert forall i :: 0 <= i < |front| ==> front[i] == links[i];
      assert forall i :: 0 <= i < |front| ==> (Binds(links, i) <==> Binds(front, i));
      if Binds(links, last) {
        BindHeadsSpec(SnippetLinks(front, clientShadowed).value, links[last].key, links[last].value.members);
      }
    }
  }

  /** A `null` head in a relationship link makes the loop raise. */
  lemma NullHeadFails(links: seq<Member>, clientShadowed: bool, i: int, h: int)
    requires 0 <= i < |links| && links[i].key != "clone" && links[i].value.JObject?
    requires 0 <= h < |links[i].value.members| && links[i].value.members[h].value == JNull
    ensures SnippetLinks(links, clientShadowed).Failure?
  {
    if SnippetLinks(links, clientShadowed).Success? {
      SnippetLinksHeads(links, clientShadowed);
      assert Binds(links, i);
    }
  }

  /** Once a link named "client" is bound, the next head of any relationship
      link makes the loop raise. */
  lemma ClientLinkThenHeadFails(links: seq<Member>, clientShadowed: bool, i: int, j: int)
    requires 0 <= i < j < |links| && links[i].key == "client" && links[j].key != "clone"
    requires links[i].value.JObject? && |links[i].value.members| > 0
    requires links[j].value.JObject? && |links[j].value.members| > 0
    ensures SnippetLinks(links, clientShadowed).Failure?
  {
    if SnippetLinks(links, clientShadowed).Success? {
      SnippetLinksHeads(links, clientShadowed);
      assert Binds(links, i) && Binds(links, j);
    }
  }

  /** The links loop depends on iteration order once a "client" link is
      bound: links `client` and `self` with one head each raise in that order
      and bind in the other. */
  lemma ClientLinkOrderMatters(u1: Json, u2: Json)
    requires u1 != JNull && u2 != JNull
    ensures SnippetLinks([Member("client", JObject([Member("href", u1)])),
                          Member("self", JObject([Member("href", u2)]))], false).Failure?
    ensures SnippetLinks([Member("self", JObject([Member("href", u2)])),
                          Member("client", JObject([Member("href", u1)]))], false).Success?
  {
    var c := Member("client", JObject([Member("href", u1)]));
    var t := Member("self", JObject([Member("href", u2)]));
    ClientLinkThenHeadFails([c, t], false, 0, 1);
    assert [t, c][..1] == [t];
    assert [t][..0] == [];
    var start := LinkView(None, map[], false);
    assert IsAscii("self") && IsAscii("client");
    assert SnippetLinks([t][..0], false) == Success(start);
    BindHeadsSpec(start, "self", t.value.members);
    var afterSelf := SnippetLinks([t], false);
    assert afterSelf.Success? && !afterSelf.value.clientShadowed;
    BindHeadsSpec(afterSelf.value, "client", c.value.members);
  }

  /** The head loop of one relationship link body: every head rebinds the
      link's relationship, in the order `BindHead` checks. */
  method BindBodyHeads(view: LinkView, name: string, heads: seq<Member>) returns (r: Result<LinkView>)
    ensures r == BindHeads(view, name, heads)
  {
    var v := view;
    var j := 0;
    while j < |heads|
      invariant 0 <= j <= |heads|
      invariant BindHeads(view, name, heads[..j]) == Success(v)
    {
      assert heads[..j + 1][..j] == heads[..j];
      var e: Option<Error> := None;
      if v.clientShadowed {
        e := Some(AttributeError("remote_relationship"));
      } else if heads[j].value == JNull {
        e := Some(UNBOUND_METHOD);
      } else if !IsAscii(name) {
        e := Some(UnicodeEncodeError(name));
      }
      if e.Some? {
        BindHeadsPrefixFails(view, name, heads, j + 1);
        return Failure(e.value);
      }
      v := v.(relationships := v.relationships[name := heads[j].value], clientShadowed := name == "client");
      j := j + 1;
    }
    assert heads[..j] == heads;
    return Success(v);
  }

  /** The links loop of `__init__`: a clone link becomes the clone map, and
      every head of every other link rebinds that link's relationship. */
  method BindLinks(links: seq<Member>, clientShadowed: bool) returns (r: Result<LinkView>)
    ensures r == SnippetLinks(links, clientShadowed)
  {
    var view := LinkView(None, map[], clientShadowed);
    var i := 0;
    while i < |links|
      invariant 0 <= i <= |links|
      invariant SnippetLinks(links[..i], clientShadowed) == Success(view)
    {
      assert links[..i + 1][..i] == links[..i];
      var link := links[i];
      var step: Result<LinkView>;
      if link.key == "clone" {
        var c := CloneOf(link.value);
        step := if c.Failure? then Failure(c.error) else Success(view.(clone := Some(c.value)));
      } else if !link.value.JObject? {
        step := Failure(AttributeError("iteritems"));
      } else {
        step := BindBodyHeads(view, link.key, link.value.members);
      }
      assert step == Step(view, link);
      if step.Failure? {
        SnippetLinksPrefixFails(links, clientShadowed, i + 1);
        return Failure(step.error);
      }
      view := step.value;
      i := i + 1;
    }
    assert links[..i] == links;
    return Success(view);
  }

  // ---------------------------------------------------------------------
  // File names

  /** `str(f)` for every entry, for string entries only: a decoded string is
      `unicode`, and `str` encodes it with the ASCII codec. */
  function Strings(items: seq<Json>): Result<seq<string>>
    decreases |items|
  {
    if |items| == 0 then Success([])
    else
      match items[0]
      case JStr(s) =>
        if !IsAscii(s) then Failure(UnicodeEncodeError(s))
        else
          var rest :- Strings(items[1..]);
          Success([s] + rest)
      case _ => Failure(Unsupported("str() of a file entry that is not a string"))
  }

  /** `if data.get('files'): self.filenames = [str(f) for f in data['files']]`:
      no attribute when `files` is absent or falsy. */
  function FileNames(files: Json): Result<Option<seq<string>>> {
    if !Truthy(files) then Success(None)
    else
      var items :- Iterated(files);
      var names :- Strings(items);
      Success(Some(names))
  }

  /** The keys of a dict, as the strings iteration yields. */
  function KeyStrings(ms: seq<Member>): seq<Json> {
    seq(|ms|, i requires 0 <= i < |ms| => JStr(ms[i].key))
  }

  /** `str` of ASCII keys gives the keys, in order. */
  lemma {:induction false} StringsOfAsciiKeys(ms: seq<Member>)
    requires forall i :: 0 <= i < |ms| ==> IsAscii(ms[i].key)
    ensures Strings(KeyStrings(ms)) == Success(Keys(ms))
  {
    if |ms| > 0 {
      assert KeyStrings(ms)[1..] == KeyStrings(ms[1..]);
      assert forall i :: 0 <= i < |ms| - 1 ==> ms[1..][i] == ms[i + 1];
      StringsOfAsciiKeys(ms[1..]);
      assert Keys(ms) == [ms[0].key] + Keys(ms[1..]);
    }
  }

  /** `str` of the keys raises UnicodeEncodeError for a non-ASCII key as soon
      as there is one. */
  lemma {:induction false} StringsOfNonAsciiKey(ms: seq<Member>, i: int)
    requires 0 <= i < |ms| && !IsAscii(ms[i].key)
    ensures exists j :: 0 <= j < |ms| && !IsAscii(ms[j].key) &&
                        Strings(KeyStrings(ms)) == Failure(UnicodeEncodeError(ms[j].key))
  {
    assert KeyStrings(ms)[0] == JStr(ms[0].key);
    if IsAscii(ms[0].key) {
      assert KeyStrings(ms)[1..] == KeyStrings(ms[1..]);
      assert ms[1..][i - 1] == ms[i];
      StringsOfNonAsciiKey(ms[1..], i - 1);
      var j :| 0 <= j < |ms[1..]| && !IsAscii(ms[1..][j].key) &&
               Strings(KeyStrings(ms[1..])) == Failure(UnicodeEncodeError(ms[1..][j].key));
      assert ms[1..][j] == ms[j + 1];
    }
  }

  /** For the usual `files` dict with ASCII names, the file names are its
      keys in order. */
  lemma FileNamesOfDict(ms: seq<Member>)
    requires |ms| > 0 && forall i :: 0 <= i < |ms| ==> IsAscii(ms[i].key)
    ensures FileNames(JObject(ms)) == Success(Some(Keys(ms)))
  {
    StringsOfAsciiKeys(ms);
  }

  /** A file name outside ASCII makes `str` raise, so the snippet cannot be
      built. */
  lemma FileNamesNonAscii(ms: seq<Member>, i: int)
    requires 0 <= i < |ms| && !IsAscii(ms[i].key)
    ensures FileNames(JObject(ms)).Failure? && FileNames(JObject(ms)).error.UnicodeEncodeError?
  {
    StringsOfNonAsciiKey(ms, i);
  }

  // ---------------------------------------------------------------------
  // The snippet object

  /** What `__init__` builds from the coerced data besides the attributes:
      the links view and the file names. */
  datatype Parts = Parts(links: LinkView, filenames: Option<seq<string>>)

  /** `data['links']` (KeyError when absent, no `iteritems` when not a dict),
      the links loop, then the file names. */
  function Bound(ms: seq<Member>): Result<Parts> {
    var links :- Index(JObject(ms), "links");
    if !links.JObject? then Failure(AttributeError("iteritems"))
    else
      var view :- SnippetLinks(links.members, Get(ms, "client").Some?);
      var names :- FileNames(GetOrNull(ms, "files"));
      Success(Parts(view, names))
  }

  /** For a snippet whose links dict (distinct keys) binds without raising:
      a name is a relationship exactly when it is not "clone" and its link
      body is a non-empty dict, bound to the URL of that body's last head;
      the clone attribute is the clone map of the "clone" link. (With a
      "client" data field, a built snippet has no such link at all.) */
  lemma SnippetRelationshipsAt(ms: seq<Member>, lm: seq<Member>, k: string)
    requires Get(ms, "links") == Some(JObject(lm)) && DistinctKeys(lm)
    requires Bound(ms).Success?
    ensures var rel := Bound(ms).value.links.relationships;
            k in rel <==> k != "clone" && Get(lm, k).Some? && Get(lm, k).value.JObject? &&
                          |Get(lm, k).value.members| > 0
    ensures var rel := Bound(ms).value.links.relationships;
            k in rel ==> var heads := Get(lm, k).value.members; rel[k] == heads[|heads| - 1].value
    ensures Get(lm, "clone").Some? ==>
              CloneOf(Get(lm, "clone").value).Success? &&
              Bound(ms).value.links.clone == Some(CloneOf(Get(lm, "clone").value).value)
  {
    var cs := Get(ms, "client").Some?;
    SnippetLinksParts(lm, cs);
    if !cs {
      Links.RegisteredAt(lm, true, k);
    } else {
      SnippetLinksHeads(lm, cs);
      GetSpec(lm, k);
      if Get(lm, k).Some? {
        var i :| IsLast(lm, k, i) && lm[i].value == Get(lm, k).value;
        assert !Binds(lm, i);
      }
    }
  }

  /** A snippet object. `data` is the dict it was built from, shared with
      the caller; `attributes` are the data fields copied onto the object;
      `links` holds the clone map and the relationships. */
  class Snippet {
    const data: JsonDict
    const attributes: seq<Member>
    const links: LinkView
    const filenames: Option<seq<string>>

    constructor (data: JsonDict, attributes: seq<Member>, links: LinkView, filenames: Option<seq<string>>)
      ensures this.data == data && this.attributes == attributes
      ensures this.links == links && this.filenames == filenames
    {
      this.data := data;
      this.attributes := attributes;
      this.links := links;
      this.filenames := filenames;
    }

    /** `content(filename)`: the URL it would fetch, or `None` without any
        request. The `files` attribute is the data field, unless a
        relationship named "files" replaced it. */
    function ContentUrl(filename: string): (r: Result<Option<Json>>)
      ensures "files" in links.relationships ==> r == Failure(AttributeError("get"))
      ensures "files" !in links.relationships && Get(attributes, "files").None? ==>
                r == Failure(AttributeError("files"))
      ensures "files" !in links.relationships && Get(attributes, "files").Some? &&
              Get(attributes, "files").value.JObject? ==>
                var fm := Get(attributes, "files").value.members;
                (r == Success(None) <==> !HasTruthy(fm, filename)) &&
                ((forall i :: 0 <= i < |fm| ==> fm[i].key != filename) ==> r == Success(None))
    {
      if "files" in links.relationships then Failure(AttributeError("get"))
      else
        match Get(attributes, "files")
        case None => Failure(AttributeError("files"))
        case Some(files) =>
          if !files.JObject? then Failure(AttributeError("get"))
          else
          var entry := GetOrNull(files.members, filename);
          if !Truthy(entry) then Success(None)
          else
            var linksOfFile :- Index(entry, "links");
            var self :- Index(linksOfFile, "self");
            var href :- Index(self, "href");
            Success(Some(href))
    }
  }

  /** `Snippet(data)`: coerces the `is_` fields of the caller's dict in
      place (this happens even if construction then raises), copies the
      fields onto the object, and builds the links view and file names. */
  method NewSnippet(data: JsonDict) returns (r: Result<Snippet>)
    modifies data
    ensures data.members == Coerced(old(data.members))
    ensures Bound(data.members).Failure? ==> r == Failure(Bound(data.members).error)
    ensures Bound(data.members).Success? ==>
              && r.Success? && fresh(r.value)
              && r.value.data == data && r.value.attributes == data.members
              && r.value.links == Bound(data.members).value.links
              && r.value.filenames == Bound(data.members).value.filenames
  {
    CoerceFlags(data);
    var ms := data.members;
    var links := Get(ms, "links");
    if links.None? {
      return Failure(KeyError("links"));
    }
    if !links.value.JObject? {
      return Failure(AttributeError("iteritems"));
    }
    var view := BindLinks(links.value.members, Get(ms, "client").Some?);
    if view.Failure? {
      return Failure(view.error);
    }
    var names := FileNames(GetOrNull(ms, "files"));
    if names.Failure? {
      return Failure(names.error);
    }
    var snippet := new Snippet(data, ms, view.value, names.value);
    return Success(snippet);
  }
}
