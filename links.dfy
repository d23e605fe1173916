/** `uritemplate.expand`, a foreign library implementing RFC 6570. The model
    does not re-implement it: every operation that builds a URL takes the
    expansion function as a parameter. */
module UriTemplate {
  /** `expand(template, variables)`. */
  type Expander = (string, map<string, string>) -> string
}

/** What `Snippet.__init__` and `Team.__init__` do with each entry of a
    resource's `links` dict: for every head of the link body, bind a
    relationship traversal of that head's URL under the link's name. The
    dynamically attached methods become one explicit map from relationship
    name to the URL the traversal would page through. */
module Links {
  import opened Runtime
  import opened Json

  /** A link that raises when it is bound: its body has no `iteritems`, or
      it has a head and `setattr` cannot turn its non-ASCII name into an
      attribute name. */
  predicate Fails(link: Member) {
    !link.value.JObject? || (|link.value.members| > 0 && !IsAscii(link.key))
  }

  /** The exception a failing link raises. */
  function FailureOf(link: Member): Error {
    if !link.value.JObject? then AttributeError("iteritems") else UnicodeEncodeError(link.key)
  }

  /** The relationship name to URL map after one more link: each head rebinds
      the name, so the last head's URL is the one kept; an empty body binds
      nothing; a body that is not a dict has no `iteritems`; a non-ASCII name
      raises at its first `setattr`. */
  function Register(rel: map<string, Json>, link: Member): (r: Result<map<string, Json>>)
    ensures r.Failure? <==> Fails(link)
    ensures r.Failure? ==> r.error == FailureOf(link)
    ensures r.Success? && |link.value.members| == 0 ==> r.value == rel
    ensures r.Success? && |link.value.members| > 0 ==>
              r.value == rel[link.key := link.value.members[|link.value.members| - 1].value]
  {
    match link.value
    case JObject(heads) =>
      if |heads| == 0 then Success(rel)
      else if !IsAscii(link.key) then Failure(UnicodeEncodeError(link.key))
      else Success(rel[link.key := heads[|heads| - 1].value])
    case _ => Failure(AttributeError("iteritems"))
  }

  /** The relationships bound by a whole `links` dict, iterated in document
      order, stopping at the first link that raises. With `skipClone`, the
      link named "clone" binds nothing (the snippet keeps it as a map
      instead). */
  function RegisterAll(links: seq<Member>, skipClone: bool): Result<map<string, Json>>
    decreases |links|
  {
    if |links| == 0 then Success(map[])
    else
      var rel :- RegisterAll(links[..|links| - 1], skipClone);
      var link := links[|links| - 1];
      if skipClone && link.key == "clone" then Success(rel) else Register(rel, link)
  }

  /** Link `i` takes part in registration. */
  predicate Registering(links: seq<Member>, skipClone: bool, i: int)
    requires 0 <= i < |links|
  {
    !(skipClone && links[i].key == "clone")
  }

  /** Link `i` is the first link taking part that raises. */
  predicate FirstFailing(links: seq<Member>, skipClone: bool, i: int) {
    0 <= i < |links| && Registering(links, skipClone, i) && Fails(links[i]) &&
    forall j :: 0 <= j < i && Registering(links, skipClone, j) ==> !Fails(links[j])
  }

  /** Registration raises exactly when some link that takes part fails, and
      the exception is that of the first such link. */
  lemma {:induction false} RegisterAllFails(links: seq<Member>, skipClone: bool)
    ensures RegisterAll(links, skipClone).Failure? <==>
              exists i :: 0 <= i < |links| && Registering(links, skipClone, i) && Fails(links[i])
    ensures RegisterAll(links, skipClone).Failure? ==>
              exists i :: FirstFailing(links, skipClone, i) &&
                          RegisterAll(links, skipClone).error == FailureOf(links[i])
  {
    if |links| > 0 {
      var front := links[..|links| - 1];
      RegisterAllFails(front, skipClone);
      assert forall i :: 0 <= i < |front| ==> front[i] == links[i];
      if RegisterAll(front, skipClone).Failure? {
        var i :| FirstFailing(front, skipClone, i) && RegisterAll(front, skipClone).error == FailureOf(front[i]);
        assert FirstFailing(links, skipClone, i);
      } else if RegisterAll(links, skipClone).Failure? {
        assert FirstFailing(links, skipClone, |links| - 1);
      }
    }
  }

  /** For a `links` dict (distinct keys) whose registration succeeds: a name
      is bound exactly when its link takes part and has a non-empty body, and
      it is bound to the URL of that body's last head. */
  lemma {:induction false} RegisteredAt(links: seq<Member>, skipClone: bool, k: string)
    requires DistinctKeys(links)
    requires RegisterAll(links, skipClone).Success?
    ensures var rel := RegisterAll(links, skipClone).value;
            k in rel <==>
              !(skipClone && k == "clone") && Get(links, k).Some? &&
              Get(links, k).value.JObject? && |Get(links, k).value.members| > 0
    ensures var rel := RegisterAll(links, skipClone).value;
            k in rel ==>
              var heads := Get(links, k).value.members;
              rel[k] == heads[|heads| - 1].value
  {
    if |links| > 0 {
      var front := links[..|links| - 1];
      var link := links[|links| - 1];
      assert DistinctKeys(front);
      RegisteredAt(front, skipClone, k);
      if link.key == k {
        GetSpec(front, k);
        assert forall i :: 0 <= i < |front| ==> front[i].key != k by {
          forall i | 0 <= i < |front| ensures front[i].key != k {
            assert front[i] == links[i];
          }
        }
      }
    }
  }

  /** Registration stops at the first link that raises: once a prefix
      raises, the whole `links` dict raises the same exception. */
  lemma {:induction false} RegisterAllPrefixFails(links: seq<Member>, skipClone: bool, n: nat)
    requires n <= |links|
    requires RegisterAll(links[..n], skipClone).Failure?
    ensures RegisterAll(links, skipClone) == RegisterAll(links[..n], skipClone)
    decreases |links|
  {
    if n < |links| {
      var front := links[..|links| - 1];
      assert front[..n] == links[..n];
      RegisterAllPrefixFails(front, skipClone, n);
    } else {
      assert links[..n] == links;
    }
  }
}
