# pybitbucket resource core, in Dafny

This project models the data logic of four resource modules of pybitbucket, a
Python 2 client for the Bitbucket Cloud REST API, and proves properties of
that model:

- **Consumer** (`consumer.py`): OAuth consumers of the 1.0 API. Covers
  the permission-scope enumeration, recognising a consumer document and the
  link templates of the class. Also covers expanding those templates, and the
  URL-encoded form body that `payload`, `create` and `update` send.
- **Snippet** (`snippet.py`): the snippet roles and the role-checked search
  URL, the create/modify body, and recognising a snippet document.
  The normalisation `Snippet.__init__` applies to the JSON it is given is
  covered too:
  - `is_` fields are coerced to booleans, in place, in the caller's dict;
  - the clone map is built;
  - every other link becomes a relationship;
  - the file names are collected.

  Finally, the guard of `content`.
- **Hook** (`hooks.py`): recognising a webhook document, the JSON body of a
  hook, and what `create_hook` posts, and where.
- **Team** (`team.py`): the team roles and the role-checked search URL.
  Covers the user/item dispatch of `remote_relationship`, and the map from
  link name to relationship URL that `Team.__init__` binds.

Shared modules:

- **Runtime**: Python exceptions as a `Result` type, `str.join`, and the
  role check.
- **Json**: decoded JSON. An object is its members in document order. A
  lookup returns the last member with the key, as the dict built by
  `json.loads` does. It also holds Python truthiness and `for x in j`.
- **UriTemplate**: `uritemplate.expand` (RFC 6570) is a foreign library. It
  is a function parameter of every operation that builds a URL.
- **Links**: binding a `links` dict to relationships, shared by Snippet and
  Team.

Choices made in the model:

- Python `None` and JSON `null` are both `JNull`.
- An exception is a `Failure` carrying the Python exception class (and the
  message, where the source builds one).
- Objects whose attributes are set dynamically (`setattr`) get an explicit
  map from relationship name to URL.

Behaviour of the code that is easy to miss, and that the model keeps:

- The hooks endpoint has no `/` between the base URL and `2.0`.
- `create_hook` always sends the expanded endpoint as the hook's `url`. The
  caller's `url` argument is overwritten before the body is built.
- A JSON `true` under an `is_` key becomes `false` (`JsonTrueBecomesFalse`).
- A team with the usual `clone` link (a list body) cannot be built
  (`CloneLinkFails`).
- A snippet cannot be built when a relationship link has a `null` URL: the
  two-argument `types.MethodType` raises TypeError (`NullHeadFails`). Nor can
  it be built after a relationship named `client` has replaced the object's
  client, if any later link has a head (`ClientLinkThenHeadFails`).
- In `Hook.is_type` only the first `return` runs (hooks.py:12-16). The second
  `return` (hooks.py:17) can never run.

## Model

| member | source | states |
|---|---|---|
| Consumer.IsType | pybitbucket/consumer.py:46-52 | true exactly when `id`, `name`, `secret` and `key` are all present and not null |
| Consumer.GetLink | pybitbucket/consumer.py:72-76 | the lookup chain through `links_json` never raises; `self`, `owner` and `consumers` give their templates, every other name gives `None` |
| Consumer.FirstInvalid | pybitbucket/consumer.py:8-25 | no result iff every scope is a `PermissionScope` value; otherwise the result is the first scope that is not |
| Consumer.FirstInvalidAt | pybitbucket/consumer.py:93 | an invalid scope preceded only by valid ones is the first invalid scope |
| Consumer.ValidateScopes | pybitbucket/consumer.py:93 | the validation loop stops at exactly the first scope outside the enumeration |
| Consumer.AppendScopes | pybitbucket/consumer.py:94 | appends one `scope` pair per scope, in input order, after the existing fields |
| Consumer.Payload | pybitbucket/consumer.py:78-101 | the method's result is the form body `FormPayload` describes, or the invalid-value exception |
| Consumer.PayloadRejects | pybitbucket/consumer.py:91-93 | the body is rejected iff some scope is outside the enumeration, and the exception names the first such scope |
| Consumer.PayloadFields | pybitbucket/consumer.py:89-100 | each of name, description, url and callback_url is sent iff its argument is not `None`, once, with its value; one `scope` field per scope, in input order |
| Consumer.PayloadValuesOf | pybitbucket/consumer.py:85-101 | the values under any field name are the values of each field group, concatenated in body order |
| Consumer.PayloadOrder | pybitbucket/consumer.py:89-100 | fields come in the order name, scopes, description, url, callback_url |
| Consumer.PayloadAllNone | pybitbucket/consumer.py:85-101 | with every argument `None` the body is empty |
| Consumer.Create | pybitbucket/consumer.py:103-124 | posts to the expanded `consumers` template, with the body of `payload` on its arguments |
| Consumer.Update | pybitbucket/consumer.py:130-141 | puts the body of `payload` on exactly its five arguments |
| Consumer.ExpandLinkUrls | pybitbucket/consumer.py:54-60 | the loop builds the map `ExpandedLinks` describes |
| Consumer.ExpandedLinksKeys | pybitbucket/consumer.py:54-60 | a name is in the map iff some link has it |
| Consumer.ExpandedLinksAt | pybitbucket/consumer.py:54-60 | a link name maps to `{'href': ...}` of the expansion of its last template |
| Hook.IsType | pybitbucket/hooks.py:10-16 | true exactly when `uuid`, `events` and `active` are all present and not null |
| Hook.MakePayload | pybitbucket/hooks.py:19-37 | a key is present iff its argument is not `None`, with its value; no other key; empty when all are `None` |
| Hook.CreateHook | pybitbucket/hooks.py:39-55 | posts to the expanded hooks template; the body's `url` is that endpoint whatever the `url` argument; the other keys are those of the non-`None` arguments |
| Team.FindTeamsForRole | pybitbucket/team.py:16-23 | fails iff the role is not admin, contributor or member, with the NameError message of the source; otherwise the expanded teams URL |
| Team.RolesJoined | pybitbucket/team.py:19-20 | the message lists admin, contributor and member in that order, separated by vertical bars |
| Team.DefaultRoleAccepted | pybitbucket/team.py:8-17 | the default role `admin` passes the role check |
| Team.Dispatch | pybitbucket/team.py:41-47 | raises iff the item is not a dict or has no `type`; a `user` item becomes a User, any other item is yielded as it is |
| Team.RemoteRelationship | pybitbucket/team.py:38-47 | yields the dispatched items in order up to the first item that raises, then that item's exception |
| Team.NewTeam | pybitbucket/team.py:49-56 | the team is built iff `links` is present, every link body is a dict and every link with a head has an ASCII name; its relationships are `TeamRelationships` of the dict |
| Team.Team.constructor | pybitbucket/team.py:49-52 | keeps the dict and the relationship map |
| Team.CloneLinkFails | pybitbucket/team.py:53-54 | a `clone` link with a list body makes construction raise, with AttributeError unless an earlier link has a non-ASCII name |
| Team.RelationshipsAt | pybitbucket/team.py:53-56 | a name is bound iff its link body is a non-empty dict, to the URL of the body's last head |
| Links.RegisterAllFails | pybitbucket/team.py:53-56 | binding raises iff some link that takes part fails, with the exception of the first such link |
| Links.RegisteredAt | pybitbucket/snippet.py:102-112 | with distinct link names, a name is bound iff it takes part and its body is a non-empty dict, to the URL of the last head |
| Links.RegisterAllPrefixFails | pybitbucket/team.py:53-56 | once a prefix of the links raises, the whole loop raises the same exception |
| Snippet.FindSnippetsForRole | pybitbucket/snippet.py:61-70 | fails iff the role is not owner, contributor or member, with the NameError message of the source; otherwise the expanded snippets URL |
| Snippet.RolesJoined | pybitbucket/snippet.py:64-65 | the message lists owner, contributor and member in that order, separated by vertical bars |
| Snippet.DefaultRoleAccepted | pybitbucket/snippet.py:14-18 | the default role `owner` passes the role check |
| Snippet.MakePayload | pybitbucket/snippet.py:22-40 | a key is present iff its argument is not `None` (so `False` is sent), with its value; no other key; empty when all are `None` |
| Snippet.IsType | pybitbucket/snippet.py:89-91 | true exactly when `id` is truthy and `destination` is absent or falsy |
| Snippet.CoerceFlags | pybitbucket/snippet.py:97-99 | in place: every key keeps its place; an `is_` value becomes true iff it was "True" or "true"; other values are unchanged |
| Snippet.CoercedGet | pybitbucket/snippet.py:97-99 | as a dict, the coerced data has the same keys; an `is_` key holds the coerced value of its raw value; other keys keep their values |
| Snippet.JsonTrueBecomesFalse | pybitbucket/snippet.py:98-99 | a JSON `true` under an `is_` key becomes false |
| Snippet.CloneMapEntries | pybitbucket/snippet.py:103-104 | when the clone comprehension completes, every item had an `href` and a hashable `name` |
| Snippet.CloneMapKeys | pybitbucket/snippet.py:104 | the clone map's keys are exactly the items' names |
| Snippet.CloneMapLast | pybitbucket/snippet.py:104 | each name maps to the `href` of the last item with that name |
| Snippet.SnippetLinksPrefixFails | pybitbucket/snippet.py:102-112 | once a prefix of the links raises, the whole loop raises the same exception |
| Snippet.BindHeadsSpec | pybitbucket/snippet.py:106-112 | a non-empty body binds iff the client is still in place, the name is ASCII, no head is `null`, and a `client` link has one head; the name is then bound to the last head's URL |
| Snippet.SnippetLinksParts | pybitbucket/snippet.py:102-112 | the relationships are those every non-`clone` link binds (none if a `client` data field shadowed the client); `clone` is never a relationship; the clone attribute exists iff there is a `clone` link, and is its clone map |
| Snippet.SnippetLinksHeads | pybitbucket/snippet.py:102-112 | after a completed loop every bound head is non-`null` under an ASCII name; a `client` relationship has one head and no relationship link with a head follows it; the client is replaced iff it was at the start or a `client` link was bound |
| Snippet.NullHeadFails | pybitbucket/snippet.py:110-112 | a `null` head in a relationship link makes the loop raise |
| Snippet.ClientLinkThenHeadFails | pybitbucket/snippet.py:107-111 | a head of any relationship link after a bound `client` link makes the loop raise |
| Snippet.ClientLinkOrderMatters | pybitbucket/snippet.py:102-112 | links `client` and `self` with one non-null head each make the loop raise in that order and bind in the reverse order |
| Snippet.BindBodyHeads | pybitbucket/snippet.py:106-112 | the head loop of one link body builds the view `BindHeads` describes, or raises its exception |
| Snippet.BindLinks | pybitbucket/snippet.py:102-112 | the loop builds the view `SnippetLinks` describes, or raises its exception |
| Snippet.StringsOfAsciiKeys | pybitbucket/snippet.py:114 | `str` of ASCII keys gives the keys, in order |
| Snippet.StringsOfNonAsciiKey | pybitbucket/snippet.py:114 | with a non-ASCII key, `str` of the keys raises UnicodeEncodeError for a non-ASCII key |
| Snippet.FileNamesOfDict | pybitbucket/snippet.py:113-114 | for a non-empty `files` dict with ASCII names, the file names are its keys, in order |
| Snippet.FileNamesNonAscii | pybitbucket/snippet.py:113-114 | a non-ASCII file name makes construction raise UnicodeEncodeError |
| Snippet.SnippetRelationshipsAt | pybitbucket/snippet.py:100-112 | for a constructed snippet, with or without a `client` field, a name is a relationship iff it is not `clone` and its body is a non-empty dict, bound to the last head's URL; the clone attribute is the clone map of the `clone` link |
| Snippet.Snippet.constructor | pybitbucket/snippet.py:93-101 | keeps the shared dict, the copied attributes, the links view and the file names |
| Snippet.Snippet.ContentUrl | pybitbucket/snippet.py:145-148 | no request (`None`) iff the file has no truthy entry, in particular for a file not listed; a `files` relationship or a missing `files` attribute raises AttributeError |
| Snippet.NewSnippet | pybitbucket/snippet.py:93-114 | coerces the caller's dict in place first, then builds the snippet from `Bound` of the coerced data, or raises its exception |

## Left out

- HTTP is not modelled: sessions, status checks (`expect_ok`), `post`/`put`/`delete`, response bodies. The operations that only issue a request are `find_consumers`, `find_consumer_by_id`, `create_snippet`, `find_snippet_by_id`, `modify`, `delete`, `find_team_by_username`, `find_webhook_by_uuid_and_repo` and `find_webhooks_by_repo`. The parts they share with the modelled operations (URL templates and payloads) are modelled once.
- Pagination is not modelled. `find_snippets_for_role` and `find_teams_for_role` are modelled up to the URL they walk. `remote_relationship` takes the items of all pages as a sequence.
- Generators are lazy in the source, so the role check raises only at the first `next()`. The model reports it as the call's failure.
- `uritemplate.expand` is a foreign library. It is a function parameter (`UriTemplate.Expander`); its RFC 6570 semantics are not modelled.
- `Client`, `BitbucketBase`, `User`, `enum`, `expect_list` and `links_from` are outside the modelled core. `links_from` is taken as its sequence of (name, template) pairs. `Consumer.__init__` (consumer.py:62-70) is outside the core: it hands the data to `BitbucketBase.__init__` and `add_remote_relationship_methods`, which are not modelled. A `User` result is represented by the item it wraps.
- Consumer.Payload: `expect_list` rejecting a non-list `scopes` is not modelled. The argument is typed as a sequence.
- Python 2 dict iteration order is unspecified. The model fixes document order, both for the links dict and for the heads of each link body. Results do not depend on that order only when every link body has at most one head, at most one link raises, and, in a snippet, a relationship link named `client` with a head is the only relationship link with a head. With several heads, which one is "last" follows the body's own iteration order. With several failing links, which exception is raised follows the links' order. A bound `client` relationship makes every later head raise (`ClientLinkThenHeadFails`), so a snippet with links `client` and `self`, one head each, is built only when `self` is iterated first (`ClientLinkOrderMatters`).
- A member list with repeated keys is iterated as written. `json.loads` would keep only the last member of a repeated key.
- Numbers are integers only. Strings are code-point sequences. The one encoding step that can raise, turning a decoded (unicode) string into a byte string with the ASCII codec, is modelled where the core does it: `str()` of a file name and the attribute name passed to `setattr`. `__repr__`, `__str__` and `__unicode__` are not modelled.
- Snippet.FileNames: `str()` of a file entry that is not a string is reported as `Unsupported`. Python would produce its text form.
- Snippet.CloneMapKeys: clone names are compared as JSON values. Python's `True == 1` hash collision between names is not modelled.
- Attributes set by `self.__dict__.update(data)` are the coerced member list. Three cases of attribute shadowing are modelled: a data field named `client` or a bound relationship named `client`, after which the next head of the relationship loop raises, and a relationship named `files`, which hides the `files` field from `content`. Other shadowing (a `data`, `links` or `clone` field or relationship) is not: the model's `data`, `links` and `clone` are always the dict, the links view and the clone map.
- `open_files` opens local files and is not modelled.
- Invoking a bound relationship is not modelled. A team relationship calls `Team.remote_relationship(url)`, whose dispatch is `Team.RemoteRelationship`. team.py:55-56 passes `self.client` as the third argument of `types.MethodType`, which is the method's class, not a call argument, so that walk runs with the default `Client()`, not the team's client. A snippet relationship calls the client's own `remote_relationship(url)`, which belongs to `Client` and is not modelled.
