/** Repository webhooks: recognising a hook document, the JSON body that
    creating a hook posts, and how `create_hook` fills it. */
module Hook {
  import opened Runtime
  import opened Json
  import opened UriTemplate

  /** Recognition: uuid, events and active are all present and not null.
      Only the first `return` of the source runs; the second one, which
      tested truthiness and `links`, can never run. */
  function IsType(data: seq<Member>): (r: bool)
    ensures r <==> HasNonNull(data, "uuid") && HasNonNull(data, "events") && HasNonNull(data, "active")
  {
    GetOrNull(data, "uuid") != JNull && GetOrNull(data, "events") != JNull &&
    GetOrNull(data, "active") != JNull
  }

  /** The JSON list of event names. */
  function EventList(events: seq<string>): (r: Json)
    ensures r.JArray? && |r.items| == |events|
    ensures forall i :: 0 <= i < |events| ==> r.items[i] == JStr(events[i])
  {
    JArray(seq(|events|, i requires 0 <= i < |events| => JStr(events[i])))
  }

  /** `Hook.make_payload`: a key is present exactly when its argument is not
      `None` (so `active=False` and `events=[]` are sent), with the
      argument's value; no other key is ever present. */
  method MakePayload(description: Option<string>, url: Option<string>,
                     active: Option<bool>, events: Option<seq<string>>)
    returns (payload: map<string, Json>)
    ensures payload.Keys <= {"description", "url", "active", "events"}
    ensures "description" in payload <==> description.Some?
    ensures "url" in payload <==> url.Some?
    ensures "active" in payload <==> active.Some?
    ensures "events" in payload <==> events.Some?
    ensures description.Some? ==> payload["description"] == JStr(description.value)
    ensures url.Some? ==> payload["url"] == JStr(url.value)
    ensures active.Some? ==> payload["active"] == JBool(active.value)
    ensures events.Some? ==> payload["events"] == EventList(events.value)
    ensures description.None? && url.None? && active.None? && events.None? ==> payload == map[]
  {
    payload := map[];
    if description.Some? {
      payload := payload["description" := JStr(description.value)];
    }
    if url.Some? {
      payload := payload["url" := JStr(url.value)];
    }
    if active.Some? {
      payload := payload["active" := JBool(active.value)];
    }
    if events.Some? {
      payload := payload["events" := EventList(events.value)];
    }
  }

  /** The hooks endpoint of a repository (no '/' between the base URL and
      "2.0", as in the source). */
  const HOOKS_TEMPLATE := "{+bitbucket_url}2.0/repositories/{username}/{repository_name}/hooks"

  /** `Hook.create_hook`: the URL it posts to and the body it posts. The
      `url` parameter is overwritten by the expanded endpoint before the
      payload is built, so the body's "url" is always the endpoint and the
      caller's `url` argument is never sent. */
  method CreateHook(repositoryName: string, description: Option<string>, url: Option<string>,
                    active: Option<bool>, events: Option<seq<string>>,
                    bitbucketUrl: string, username: string, expand: Expander)
    returns (postUrl: string, payload: map<string, Json>)
    ensures postUrl == expand(HOOKS_TEMPLATE, map["bitbucket_url" := bitbucketUrl, "username" := username,
                                                  "repository_name" := repositoryName])
    ensures "url" in payload && payload["url"] == JStr(postUrl)
    ensures payload.Keys == {"url"} + (if description.Some? then {"description"} else {}) +
                            (if active.Some? then {"active"} else {}) +
                            (if events.Some? then {"events"} else {})
    ensures description.Some? ==> payload["description"] == JStr(description.value)
    ensures active.Some? ==> payload["active"] == JBool(active.value)
    ensures events.Some? ==> payload["events"] == EventList(events.value)
  {
    var endpoint := expand(HOOKS_TEMPLATE, map["bitbucket_url" := bitbucketUrl, "username" := username,
                                               "repository_name" := repositoryName]);
    postUrl := endpoint;
    payload := MakePayload(description, Some(endpoint), active, events);
  }
}
