/** The webhook route table under the lifecycle commands: activation with its rollback, and stop. */
module Routes {
  import opened Base

  datatype Route = Route(workflow: string, method_: string, path: string)

  /** A trigger as configured; the other types either start or fail for reasons outside this model. */
  datatype Trigger = Webhook(path: string, method_: string) | Other(starts: bool)

  function Key(method_: string, path: string): string {
    method_ + " " + path
  }

  const PREFIX := "/hooks/"

  function Upper(s: string): string {
    if s == "" then "" else [if 'a' <= s[0] <= 'z' then (s[0] as int - 32) as char else s[0]] + Upper(s[1..])
  }

  /** parseWebhookConfig: the method and path of a valid configuration. */
  function Parse(t: Trigger): Option<(string, string)> {
    if t.Webhook? && PREFIX <= t.path then Some((if t.method_ == "" then "POST" else Upper(t.method_), t.path))
      else None
  }

  /** The method a webhook answers: POST when none is given, else the given one in capitals. */
  ghost predicate Answers(given: string, m: string) {
    if given == "" then m == "POST"
    else |m| == |given| && forall i :: 0 <= i < |given| ==>
      if 'a' <= given[i] <= 'z' then m[i] as int == given[i] as int - 'a' as int + 'A' as int else m[i] == given[i]
  }

  lemma {:induction false} UpperLetters(s: string)
    ensures |Upper(s)| == |s| && forall i :: 0 <= i < |s| ==>
      if 'a' <= s[i] <= 'z' then Upper(s)[i] as int == s[i] as int - 'a' as int + 'A' as int else Upper(s)[i] == s[i]
    decreases |s|
  {
    if s != "" {
      UpperLetters(s[1..]);
    }
  }

  /** A webhook is valid exactly if its path lies under /hooks/; method and path are then determined. */
  lemma ParseIff(t: Trigger, m: string, path: string)
    ensures Parse(t) == Some((m, path)) <==>
      t.Webhook? && "/hooks/" <= t.path && path == t.path && Answers(t.method_, m)
  {
    if t.Webhook? {
      UpperLetters(t.method_);
      if t.method_ != "" && Answers(t.method_, m) {
        assert m == Upper(t.method_);
      }
    }
  }

  /** The keys that a workflow's triggers claim. */
  function Claims(triggers: seq<Trigger>): set<string> {
    set t | t in triggers && Parse(t).Some? :: Key(Parse(t).value.0, Parse(t).value.1)
  }

  // ---------------------------------------------------------------- keys

  /** Two different pairs share a key exactly when one method is the other with a space and more behind it,
      and that text stands before the other path. */
  lemma KeyClash(m1: string, p1: string, m2: string, p2: string)
    requires |m1| < |m2|
    ensures Key(m1, p1) == Key(m2, p2) <==> exists x: string :: m2 == m1 + " " + x && p1 == x + " " + p2
  {
    if Key(m1, p1) == Key(m2, p2) {
      var k := Key(m2, p2);
      var x := m2[|m1| + 1..];
      assert k[..|m2|] == m2 && k[|m2|] == ' ' && k[|m2| + 1..] == p2;
      assert k[..|m1|] == m1 && k[|m1|] == ' ' && k[|m1| + 1..] == p1;
      assert m2 == m1 + " " + x;
      assert p1 == x + " " + p2 by {
        assert k[|m1| + 1..] == k[|m1| + 1..|m2|] + k[|m2|..];
      }
    }
    if x: string :| m2 == m1 + " " + x && p1 == x + " " + p2 {
      assert m1 + " " + (x + " " + p2) == (m1 + " " + x) + " " + p2;
    }
  }

  lemma SameLengthKey(m1: string, p1: string, m2: string, p2: string)
    requires |m1| == |m2|
    ensures Key(m1, p1) == Key(m2, p2) <==> m1 == m2 && p1 == p2
  {
    if Key(m1, p1) == Key(m2, p2) {
      var k := Key(m2, p2);
      assert k[..|m2|] == m2 && k[|m2| + 1..] == p2;
      assert k == Key(m1, p1) && k[..|m1|] == m1 && k[|m1| + 1..] == p1;
    }
  }

  /** Methods without a space, as every request has them, make the key injective. */
  lemma SpacelessKeyInjective(m1: string, p1: string, m2: string, p2: string)
    requires ' ' !in m1 && ' ' !in m2
    ensures Key(m1, p1) == Key(m2, p2) <==> m1 == m2 && p1 == p2
  {
    if |m1| == |m2| {
      SameLengthKey(m1, p1, m2, p2);
    } else {
      SpacelessDiffer(m1, p1, m2, p2);
    }
  }

  lemma SpacelessDiffer(m1: string, p1: string, m2: string, p2: string)
    requires ' ' !in m1 && ' ' !in m2 && |m1| != |m2|
    ensures Key(m1, p1) != Key(m2, p2)
  {
    var i := if |m1| < |m2| then |m1| else |m2|;
    assert Key(m1, p1)[i] != Key(m2, p2)[i];
  }

  /** What the parser lets through: no lower-case letter in the method, a path under /hooks/. */
  predicate Accepted(m: string, path: string) {
    PREFIX <= path && forall c :: c in m ==> !('a' <= c <= 'z')
  }

  lemma {:induction false} UpperHasNoLower(s: string)
    ensures forall c :: c in Upper(s) ==> !('a' <= c <= 'z')
    decreases |s|
  {
    if s != "" {
      UpperHasNoLower(s[1..]);
    }
  }

  lemma ParseAccepts(t: Trigger)
    ensures Parse(t).Some? ==> Accepted(Parse(t).value.0, Parse(t).value.1)
  {
    if t.Webhook? {
      UpperHasNoLower(t.method_);
    }
  }

  /** Two places behind the shorter method stands the h of its path, and in the other key no lower-case letter. */
  lemma AcceptedDiffer(m1: string, p1: string, m2: string, p2: string)
    requires Accepted(m1, p1) && Accepted(m2, p2) && |m1| < |m2|
    ensures Key(m1, p1) != Key(m2, p2)
  {
    var i := |m1| + 2;
    assert PREFIX[1] == 'h' && PREFIX[0] == '/';
    assert Key(m1, p1)[i] == p1[1] == 'h';
    assert Key(m2, p2)[i] == if i < |m2| then m2[i] else if i == |m2| then ' ' else p2[0];
    assert i < |m2| ==> m2[i] in m2;
    assert Key(m2, p2)[i] != 'h';
  }

  /** For two webhooks that the parser accepts the key tells method and path apart. */
  lemma ParsedKeyInjective(m1: string, p1: string, m2: string, p2: string)
    requires Accepted(m1, p1) && Accepted(m2, p2)
    ensures Key(m1, p1) == Key(m2, p2) <==> m1 == m2 && p1 == p2
  {
    hide Accepted, Key;
    if |m1| == |m2| {
      SameLengthKey(m1, p1, m2, p2);
    } else if |m1| < |m2| {
      AcceptedDiffer(m1, p1, m2, p2);
    } else {
      AcceptedDiffer(m2, p2, m1, p1);
    }
  }

  // ---------------------------------------------------------------- the table

  ghost predicate Mine(routes: map<string, Route>, workflow: string, k: string) {
    k in routes && routes[k].workflow == workflow
  }

  /** The table without a workflow's routes. */
  function Others(routes: map<string, Route>, workflow: string): map<string, Route> {
    map k | k in routes && routes[k].workflow != workflow :: routes[k]
  }

  /** Beside the routes `before`, none of them the workflow's, exactly the claims of the triggers are its own. */
  ghost predicate Extends(routes: map<string, Route>, before: map<string, Route>, workflow: string,
      triggers: seq<Trigger>) {
    && Others(routes, workflow) == before
    && forall k :: Mine(routes, workflow, k) <==> k in Claims(triggers)
  }

  /** Every trigger can start, one after the other. */
  ghost predicate Startable(routes: map<string, Route>, workflow: string, triggers: seq<Trigger>) {
    && (forall t :: t in triggers ==> if t.Other? then t.starts else Parse(t).Some?)
    && forall k :: k in Claims(triggers) && k in routes ==> routes[k].workflow == workflow
  }

  /** Every route belongs to a managed workflow that declares it, and every declared webhook is routed to
      its workflow. */
  ghost predicate Sound(routes: map<string, Route>, managed: map<string, seq<Trigger>>) {
    && KeysTrue(routes)
    && (forall k :: k in routes ==> routes[k].workflow in managed && k in Claims(managed[routes[k].workflow]))
    && (forall w, k :: w in managed && k in Claims(managed[w]) ==> k in routes && routes[k].workflow == w)
  }

  /** A webhook that a managed workflow declares is routed to it, under exactly its method and path. */
  lemma DeclaredIsRouted(routes: map<string, Route>, managed: map<string, seq<Trigger>>, w: string,
      t: Trigger, m: string)
    requires Sound(routes, managed) && w in managed && t in managed[w]
    requires t.Webhook? && "/hooks/" <= t.path && Answers(t.method_, m)
    ensures m + " " + t.path in routes && routes[m + " " + t.path] == Route(w, m, t.path)
  {
    ParseIff(t, m, t.path);
    ParseAccepts(t);
    assert Key(m, t.path) in Claims(managed[w]);
    assert Key(m, t.path) == m + " " + t.path;
    hide Claims, Parse, Accepted, Key;
    var r := routes[Key(m, t.path)];
    ParsedKeyInjective(r.method_, r.path, m, t.path);
  }

  lemma ParsedIsAnswered(t: Trigger)
    requires Parse(t).Some?
    ensures t.Webhook? && "/hooks/" <= t.path && Parse(t).value.1 == t.path && Answers(t.method_, Parse(t).value.0)
  {
    ParseIff(t, Parse(t).value.0, Parse(t).value.1);
  }

  /** No method and path has two owners: managed workflows whose webhooks share a key are the same workflow,
      and the webhooks have the same method and path. */
  lemma NoTwoOwners(routes: map<string, Route>, managed: map<string, seq<Trigger>>, v: string, w: string,
      t: Trigger, u: Trigger)
    requires Sound(routes, managed) && v in managed && w in managed && t in managed[v] && u in managed[w]
    requires Parse(t).Some? && Parse(u).Some?
    requires Key(Parse(t).value.0, Parse(t).value.1) == Key(Parse(u).value.0, Parse(u).value.1)
    ensures v == w && Parse(t) == Parse(u)
  {
    ParsedIsAnswered(t);
    ParsedIsAnswered(u);
    DeclaredIsRouted(routes, managed, v, t, Parse(t).value.0);
    DeclaredIsRouted(routes, managed, w, u, Parse(u).value.0);
  }

  /** The whole table is determined by the managed workflows and their triggers, whatever sequence of commands
      led to it. */
  lemma TableDetermined(a: map<string, Route>, b: map<string, Route>, managed: map<string, seq<Trigger>>)
    requires Sound(a, managed) && Sound(b, managed)
    ensures a == b
  {
    hide Claims, Accepted, Key;
    forall k | k in a ensures k in b && a[k] == b[k] {
      ParsedKeyInjective(a[k].method_, a[k].path, b[k].method_, b[k].path);
    }
    assert forall k :: k in b ==> k in a;
  }

  class Registry {
    var routes: map<string, Route>
    var managed: map<string, seq<Trigger>>

    ghost predicate Valid()
      reads this
    {
      Sound(routes, managed)
    }

    constructor ()
      ensures Valid() && routes == map[] && managed == map[]
    {
      routes, managed := map[], map[];
    }

    method Register(workflow: string, m: string, path: string) returns (ok: bool)
      modifies this`routes
      ensures ok <==> !(Key(m, path) in old(routes) && old(routes)[Key(m, path)].workflow != workflow)
      ensures routes == if ok then old(routes)[Key(m, path) := Route(workflow, m, path)] else old(routes)
    {
      var key := Key(m, path);
      if key in routes && routes[key].workflow != workflow {
        return false;
      }
      routes := routes[key := Route(workflow, m, path)];
      ok := true;
    }

    method Unregister(workflow: string, m: string, path: string)
      modifies this`routes
      ensures routes == if Mine(old(routes), workflow, Key(m, path)) then old(routes) - {Key(m, path)} else old(routes)
    {
      var key := Key(m, path);
      if key in routes && routes[key].workflow == workflow {
        routes := routes - {key};
      }
    }

    method RemoveWorkflow(workflow: string)
      modifies this`routes
      ensures routes == Others(old(routes), workflow)
    {
      var left := routes.Keys;
      while left != {}
        invariant left <= old(routes).Keys && routes.Keys <= old(routes).Keys
        invariant forall k :: k in routes ==> routes[k] == old(routes)[k]
        invariant forall k :: k in old(routes) ==> (k in routes <==> k in left || old(routes)[k].workflow != workflow)
        decreases |left|
      {
        var key :| key in left;
        left := left - {key};
        if routes[key].workflow == workflow {
          routes := routes - {key};
        }
      }
    }

    /** The stop of every webhook handle started so far. */
    method StopHandles(workflow: string, triggers: seq<Trigger>)
      modifies this`routes
      ensures Others(routes, workflow) == Others(old(routes), workflow)
      ensures forall k :: Mine(routes, workflow, k) <==> Mine(old(routes), workflow, k) && k !in Claims(triggers)
    {
      for i := 0 to |triggers|
        invariant Others(routes, workflow) == Others(old(routes), workflow)
        invariant forall k :: Mine(routes, workflow, k) <==>
          Mine(old(routes), workflow, k) && k !in Claims(triggers[..i])
      {
        ClaimsNext(triggers, i);
        var parsed := Parse(triggers[i]);
        if parsed.Some? {
          Unregister(workflow, parsed.value.0, parsed.value.1);
        }
      }
      assert triggers[..|triggers|] == triggers;
    }

    /** activateWorkflow for a workflow that is not managed: all its routes, or none. */
    method Activate(workflow: string, triggers: seq<Trigger>) returns (ok: bool)
      requires Valid() && workflow !in managed
      modifies this
      ensures Valid()
      ensures ok <==> Startable(old(routes), workflow, triggers)
      ensures ok ==> managed == old(managed)[workflow := triggers] && Extends(routes, old(routes), workflow, triggers)
      ensures !ok ==> managed == old(managed) && routes == old(routes)
    {
      hide Claims, Sound, Extends, Startable, Parse, Key, Others;
      NothingYet(routes, managed, workflow, triggers);
      for i := 0 to |triggers|
        invariant Extends(routes, old(routes), workflow, triggers[..i]) && managed == old(managed)
        invariant KeysTrue(routes) && Startable(old(routes), workflow, triggers[..i])
      {
        StartableNext(old(routes), workflow, triggers, i);
        OneMore(routes, old(routes), workflow, triggers, i);
        var parsed := Parse(triggers[i]);
        var started := triggers[i].Other? && triggers[i].starts;
        if parsed.Some? {
          started := Register(workflow, parsed.value.0, parsed.value.1);
        }
        if !started {
          ghost var mid := routes;
          StopHandles(workflow, triggers[..i]);
          Undone(mid, routes, old(routes), workflow, triggers[..i]);
          return false;
        }
      }
      assert triggers[..|triggers|] == triggers;
      Activated(routes, old(routes), managed, workflow, triggers);
      managed := managed[workflow := triggers];
      ok := true;
    }

    /** finalizeWorkflowStop, as far as routes go. */
    method Stop(workflow: string)
      requires Valid() && workflow in managed
      modifies this
      ensures Valid() && managed == old(managed) - {workflow} && routes == Others(old(routes), workflow)
    {
      hide Claims, Sound, Others;
      StopHandles(workflow, managed[workflow]);
      ghost var left := routes;
      RemoveWorkflow(workflow);
      OthersTwice(left, workflow);
      OthersTwice(old(routes), workflow);
      Stopped(old(routes), managed, workflow);
      managed := managed - {workflow};
    }

    /** StartWorkflow: a managed workflow is stopped first, and stays stopped if its new triggers cannot start. */
    method Start(workflow: string, triggers: seq<Trigger>) returns (ok: bool)
      requires Valid()
      modifies this
      ensures Valid()
      ensures ok <==> Startable(Others(old(routes), workflow), workflow, triggers)
      ensures Others(routes, workflow) == Others(old(routes), workflow)
      ensures managed == if ok then old(managed)[workflow := triggers] else old(managed) - {workflow}
      ensures forall k :: Mine(routes, workflow, k) <==> ok && k in Claims(triggers)
    {
      hide Claims, Sound, Startable;
      OthersTwice(routes, workflow);
      if workflow in managed {
        Stop(workflow);
      } else {
        NothingYet(routes, managed, workflow, triggers);
      }
      ok := Activate(workflow, triggers);
    }
  }

  ghost predicate KeysTrue(routes: map<string, Route>) {
    forall k :: k in routes ==>
      k == Key(routes[k].method_, routes[k].path) && Accepted(routes[k].method_, routes[k].path)
  }

  lemma ClaimsNext(triggers: seq<Trigger>, i: nat)
    requires i < |triggers|
    ensures Claims(triggers[..i + 1]) == Claims(triggers[..i])
      + if Parse(triggers[i]).Some? then {Key(Parse(triggers[i]).value.0, Parse(triggers[i]).value.1)} else {}
  {
    hide Parse, Key;
    assert triggers[..i + 1] == triggers[..i] + [triggers[i]];
  }

  lemma StartableNext(routes: map<string, Route>, workflow: string, triggers: seq<Trigger>, i: nat)
    requires i < |triggers| && Startable(routes, workflow, triggers[..i])
    ensures var t := triggers[i];
      Startable(routes, workflow, triggers[..i + 1]) <==>
        if t.Other? then t.starts
        else
          && Parse(t).Some?
          && var k := Key(Parse(t).value.0, Parse(t).value.1);
             !(k in routes && routes[k].workflow != workflow)
    ensures !Startable(routes, workflow, triggers[..i + 1]) ==> !Startable(routes, workflow, triggers)
  {
  }

  /** A workflow that is not managed has no routes. */
  lemma NothingYet(routes: map<string, Route>, managed: map<string, seq<Trigger>>, workflow: string,
      triggers: seq<Trigger>)
    requires Sound(routes, managed) && workflow !in managed
    ensures Extends(routes, routes, workflow, triggers[..0]) && Startable(routes, workflow, triggers[..0])
      && KeysTrue(routes)
  {
    assert Claims(triggers[..0]) == {};
    hide Claims;
  }

  /** The next trigger of an activation: what a registration does, and when it is refused. */
  lemma OneMore(routes: map<string, Route>, before: map<string, Route>, workflow: string,
      triggers: seq<Trigger>, i: nat)
    requires i < |triggers| && Extends(routes, before, workflow, triggers[..i]) && KeysTrue(routes)
    ensures triggers[i].Other? ==> Parse(triggers[i]).None?
    ensures Parse(triggers[i]).None? ==> Extends(routes, before, workflow, triggers[..i + 1])
    ensures Parse(triggers[i]).Some? ==>
      var (m, path) := Parse(triggers[i]).value;
      var k, more := Key(m, path), routes[Key(m, path) := Route(workflow, m, path)];
      && (k in routes && routes[k].workflow != workflow <==> k in before && before[k].workflow != workflow)
      && (!(k in routes && routes[k].workflow != workflow) ==>
         Extends(more, before, workflow, triggers[..i + 1]) && KeysTrue(more))
  {
    ClaimsNext(triggers, i);
    ParseAccepts(triggers[i]);
    hide Claims, Accepted;
    if Parse(triggers[i]).Some? {
      var (m, path) := Parse(triggers[i]).value;
      hide Parse, Key;
      var k := Key(m, path);
      Recorded(routes, before, workflow, k);
      var more := routes[k := Route(workflow, m, path)];
      if !(k in routes && routes[k].workflow != workflow) {
        assert Others(more, workflow) == Others(routes, workflow);
      }
    }
  }

  lemma Recorded(routes: map<string, Route>, before: map<string, Route>, workflow: string, k: string)
    requires Others(routes, workflow) == before
    ensures k in routes && routes[k].workflow != workflow <==> k in before && before[k].workflow != workflow
  {
  }

  /** Stopping the handles of a failed activation restores the table. */
  lemma Undone(mid: map<string, Route>, routes: map<string, Route>, before: map<string, Route>,
      workflow: string, done: seq<Trigger>)
    requires Extends(mid, before, workflow, done) && Others(routes, workflow) == Others(mid, workflow)
    requires forall k :: Mine(routes, workflow, k) <==> Mine(mid, workflow, k) && k !in Claims(done)
    ensures routes == before
  {
    hide Claims;
    forall k | k in routes ensures routes[k].workflow != workflow { assert !Mine(routes, workflow, k); }
  }

  lemma Activated(routes: map<string, Route>, before: map<string, Route>, managed: map<string, seq<Trigger>>,
      workflow: string, triggers: seq<Trigger>)
    requires Sound(before, managed) && workflow !in managed && Extends(routes, before, workflow, triggers)
      && KeysTrue(routes)
    ensures Sound(routes, managed[workflow := triggers])
  {
    hide Claims;
    var after := managed[workflow := triggers];
    forall k | k in routes ensures routes[k].workflow in after && k in Claims(after[routes[k].workflow]) {
      if routes[k].workflow == workflow {
        assert Mine(routes, workflow, k);
      } else {
        assert k in before && before[k] == routes[k];
      }
    }
    forall w, k | w in after && k in Claims(after[w]) ensures k in routes && routes[k].workflow == w {
      if w == workflow {
        assert Mine(routes, workflow, k);
      } else {
        assert k in before && before[k].workflow == w;
        assert k in Others(routes, workflow);
      }
    }
  }

  lemma OthersTwice(routes: map<string, Route>, workflow: string)
    ensures Others(Others(routes, workflow), workflow) == Others(routes, workflow)
  {
  }

  lemma Stopped(routes: map<string, Route>, managed: map<string, seq<Trigger>>, workflow: string)
    requires Sound(routes, managed)
    ensures Sound(Others(routes, workflow), managed - {workflow})
  {
    hide Claims;
  }
}
