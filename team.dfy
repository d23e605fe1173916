/** Teams: the role-based team search, the dispatch of the items a team
    relationship yields, and the relationships a team object binds. */
module Team {
  import opened Runtime
  import opened Json
  import opened UriTemplate
  import Links

  /** `TeamRole.roles`. */
  const ROLES: seq<string> := ["admin", "contributor", "member"]

  /** The default role of `find_teams_for_role`. */
  const DEFAULT_ROLE := "admin"

  const TEAMS_TEMPLATE := "https://{+bitbucket_url}/2.0/teams{?role}"

  /** `find_teams_for_role`: a role outside `TeamRole.roles` raises
      `NameError` before any URL is built; otherwise the result is the URL
      whose pages are walked. */
  function FindTeamsForRole(role: string, bitbucketUrl: string, expand: Expander): (r: Result<string>)
    ensures r.Failure? <==> role !in ROLES
    ensures r.Failure? ==> r.error == NameError("role '" + role + "' is not in [" + "admin|contributor|member" + "]")
    ensures r.Success? ==> r.value == expand(TEAMS_TEMPLATE, map["bitbucket_url" := bitbucketUrl, "role" := role])
  {
    RolesJoined();
    match CheckRole(role, ROLES)
    case Some(e) => Failure(e)
    case None => Success(expand(TEAMS_TEMPLATE, map["bitbucket_url" := bitbucketUrl, "role" := role]))
  }

  /** The roles as the error message lists them. */
  lemma RolesJoined()
    ensures Join(ROLES, "|") == "admin|contributor|member"
  {
    JoinThree("admin", "contributor", "member", "|");
  }

  /** The default role passes the role check, whatever the client. */
  lemma DefaultRoleAccepted(bitbucketUrl: string, expand: Expander)
    ensures FindTeamsForRole(DEFAULT_ROLE, bitbucketUrl, expand).Success?
  {
  }

  /** What `Team.remote_relationship` yields for one item: a User built from
      the item, or the item itself. */
  datatype Yielded = User(data: Json) | Item(data: Json)

  /** An item whose `type` is "user". */
  predicate IsUserItem(item: Json) {
    item.JObject? && Get(item.members, "type") == Some(JStr("user"))
  }

  /** One item: `item['type']` raises for an item without a type (KeyError)
      or one that is not a dict (TypeError); a user item is wrapped as a
      User and any other item is yielded unchanged. */
  function Dispatch(item: Json): (r: Result<Yielded>)
    ensures r.Success? <==> item.JObject? && Get(item.members, "type").Some?
    ensures r.Success? ==> r.value.data == item && (r.value.User? <==> IsUserItem(item))
  {
    var kind :- Index(item, "type");
    Success(if kind == JStr("user") then User(item) else Item(item))
  }

  /** `Team.remote_relationship` over the items of all pages, in order. As
      the source is a generator, the items dispatched before an item that
      raises are yielded and then the exception ends the walk: `out` is
      what was yielded and `err` the exception, if any. */
  method RemoteRelationship(items: seq<Json>) returns (out: seq<Yielded>, err: Option<Error>)
    ensures |out| <= |items|
    ensures forall i :: 0 <= i < |out| ==> Dispatch(items[i]) == Success(out[i])
    ensures forall i :: 0 <= i < |out| ==> out[i].data == items[i] && (out[i].User? <==> IsUserItem(items[i]))
    ensures err.None? <==> |out| == |items|
    ensures err.Some? ==> Dispatch(items[|out|]) == Failure(err.value)
  {
    out := [];
    var i := 0;
    while i < |items|
      invariant 0 <= i <= |items| && |out| == i
      invariant forall j :: 0 <= j < i ==> Dispatch(items[j]) == Success(out[j])
    {
      var d := Dispatch(items[i]);
      if d.Failure? {
        return out, Some(d.error);
      }
      out := out + [d.value];
      i := i + 1;
    }
    err := None;
  }

  /** The relationships `Team.__init__` binds: one per entry of
      `dict['links']`, the last head of each body winning. The "clone" link
      is not treated specially. */
  function TeamRelationships(dict: seq<Member>): Result<map<string, Json>> {
    var links :- Index(JObject(dict), "links");
    match links
    case JObject(lm) => Links.RegisterAll(lm, false)
    case _ => Failure(AttributeError("iteritems"))
  }

  /** A team object: its JSON dict and its relationship name to URL map;
      invoking a relationship walks the pages of its URL through
      RemoteRelationship. */
  class Team {
    const dict: seq<Member>
    const relationships: map<string, Json>

    constructor (dict: seq<Member>, relationships: map<string, Json>)
      ensures this.dict == dict && this.relationships == relationships
    {
      this.dict := dict;
      this.relationships := relationships;
    }
  }

  /** `Team(dict)`: binds one relationship per head of every link body,
      raising as `__init__` does when `links` is missing or a body is not a
      dict. */
  method NewTeam(dict: seq<Member>) returns (r: Result<Team>)
    ensures TeamRelationships(dict).Failure? ==> r == Failure(TeamRelationships(dict).error)
    ensures TeamRelationships(dict).Success? ==>
              r.Success? && r.value.dict == dict && r.value.relationships == TeamRelationships(dict).value
  {
    var links := Get(dict, "links");
    if links.None? {
      return Failure(KeyError("links"));
    }
    if !links.value.JObject? {
      return Failure(AttributeError("iteritems"));
    }
    var lm := links.value.members;
    var rel: map<string, Json> := map[];
    var i := 0;
    while i < |lm|
      invariant 0 <= i <= |lm|
      invariant Links.RegisterAll(lm[..i], false) == Success(rel)
    {
      assert lm[..i + 1][..i] == lm[..i];
      var link := lm[i];
      if !link.value.JObject? {
        Links.RegisterAllPrefixFails(lm, false, i + 1);
        return Failure(AttributeError("iteritems"));
      }
      var heads := link.value.members;
      ghost var before := rel;
      var j := 0;
      while j < |heads|
        invariant 0 <= j <= |heads|
        invariant !IsAscii(link.key) ==> j == 0
        invariant rel == if j == 0 then before else before[link.key := heads[j - 1].value]
      {
        if !IsAscii(link.key) {
          Links.RegisterAllPrefixFails(lm, false, i + 1);
          return Failure(UnicodeEncodeError(link.key));
        }
        rel := rel[link.key := heads[j].value];
        j := j + 1;
      }
      i := i + 1;
    }
    assert lm[..i] == lm;
    var team := new Team(dict, rel);
    return Success(team);
  }

  /** A team whose links include "clone" with its usual list body cannot be
      built: the list has no `iteritems`. The exception is that AttributeError
      unless an earlier link with a head has a non-ASCII name. */
  lemma CloneLinkFails(dict: seq<Member>, lm: seq<Member>, i: int)
    requires Get(dict, "links") == Some(JObject(lm))
    requires 0 <= i < |lm| && lm[i].key == "clone" && lm[i].value.JArray?
    ensures TeamRelationships(dict).Failure?
    ensures (forall j :: 0 <= j < i ==> IsAscii(lm[j].key)) ==>
              TeamRelationships(dict) == Failure(AttributeError("iteritems"))
  {
    Links.RegisterAllFails(lm, false);
    assert Links.Registering(lm, false, i) && Links.Fails(lm[i]);
    var f :| Links.FirstFailing(lm, false, f) && Links.RegisterAll(lm, false).error == Links.FailureOf(lm[f]);
    if f < i {
      assert Links.Fails(lm[f]);
    } else {
      assert !(i < f);
    }
  }

  /** For a team whose links dict binds without raising: a name is bound
      exactly when its link body is a non-empty dict, to the URL of that
      body's last head. */
  lemma RelationshipsAt(dict: seq<Member>, lm: seq<Member>, k: string)
    requires Get(dict, "links") == Some(JObject(lm)) && DistinctKeys(lm)
    requires TeamRelationships(dict).Success?
    ensures var rel := TeamRelationships(dict).value;
            k in rel <==> Get(lm, k).Some? && Get(lm, k).value.JObject? && |Get(lm, k).value.members| > 0
    ensures var rel := TeamRelationships(dict).value;
            k in rel ==> var heads := Get(lm, k).value.members; rel[k] == heads[|heads| - 1].value
  {
    Links.RegisteredAt(lm, false, k);
  }
}
