/** Searching a document for the tags a list of rules selects. */
module Selector {

  datatype Node =
    | Tag(id: string, name: string, classes: seq<string>, children: seq<Node>)
    | Text(text: string)

  datatype Rule = Rule(id: string, tagName: string, classes: seq<string>, isChild: bool)

  /** Where a node is: the child numbers on the way down from the root. */
  type Path = seq<nat>

  /** `isChild` plays no part. */
  predicate Check(tag: Node, r: Rule) {
    && tag.Tag?
    && (r.id != "" ==> tag.id == r.id)
    && (r.tagName != "" ==> tag.name == r.tagName)
    && forall c :: c in r.classes ==> c in tag.classes
  }

  function Children(node: Node): seq<Node> {
    if node.Tag? then node.children else []
  }

  function NextRule(rules: seq<Rule>, rule: nat, tag: Node): nat {
    if rule < |rules| && Check(tag, rules[rule]) then rule + 1 else rule
  }

  /** The tags that a search of `node`, standing at `at`, reports. */
  function Found(rules: seq<Rule>, node: Node, at: Path, rule: nat): seq<Path>
    decreases node, |Children(node)| + 1
  {
    if node.Text? || |rules| <= rule then []
    else if Check(node, rules[rule]) && rule == |rules| - 1 then [at]
    else FoundBelow(rules, node, at, NextRule(rules, rule, node), 0)
  }

  function FoundBelow(rules: seq<Rule>, node: Node, at: Path, rule: nat, i: nat): seq<Path>
    requires i <= |Children(node)|
    decreases node, |Children(node)| - i
  {
    if i == |Children(node)| then []
    else Found(rules, Children(node)[i], at + [i], rule) + FoundBelow(rules, node, at, rule, i + 1)
  }

  class Query {
    const rules: seq<Rule>
    var tags: seq<Path>

    constructor (rules: seq<Rule>)
      ensures this.rules == rules && tags == []
    {
      this.rules, tags := rules, [];
    }

    method SearchTag(tag: Node, at: Path, rule: nat)
      requires tag.Tag?
      modifies this`tags
      ensures tags == old(tags) + Found(rules, tag, at, rule)
      decreases tag
    {
      if |rules| <= rule {
        return;
      }
      var nextRule := rule;
      if Check(tag, rules[rule]) {
        if rule == |rules| - 1 {
          tags := tags + [at];
          return;
        }
        nextRule := nextRule + 1;
      }
      for i := 0 to |tag.children|
        invariant tags + FoundBelow(rules, tag, at, nextRule, i) == old(tags) + FoundBelow(rules, tag, at, nextRule, 0)
      {
        if tag.children[i].Tag? {
          SearchTag(tag.children[i], at + [i], nextRule);
        }
      }
    }

    method Search(root: Node)
      modifies this`tags
      ensures tags == Found(rules, root, [], 0)
    {
      tags := [];
      if root.Tag? {
        SearchTag(root, [], 0);
      }
    }
  }

  // ---- Meaning ----

  /** `p` leads from `node` down to a tag, through tags. */
  ghost predicate IsTagPath(node: Node, p: Path)
    decreases |p|
  {
    node.Tag? && (p != [] ==> p[0] < |node.children| && IsTagPath(node.children[p[0]], p[1..]))
  }

  /** The tags from `node` to the one at `p`, both included. */
  ghost function TagsAlong(node: Node, p: Path): (ts: seq<Node>)
    requires IsTagPath(node, p)
    ensures |ts| == |p| + 1
    decreases |p|
  {
    [node] + if p == [] then [] else TagsAlong(node.children[p[0]], p[1..])
  }

  function Members(classes: seq<string>): set<string> {
    set c | c in classes
  }

  /** An empty id or name asks for nothing; the classes asked for must be there, in any order. */
  predicate Fits(tag: Node, r: Rule) {
    tag.Tag? && r.id in {"", tag.id} && r.tagName in {"", tag.name} && Members(r.classes) <= Members(tag.classes)
  }

  lemma CheckIsFits(tag: Node, r: Rule)
    ensures Check(tag, r) <==> Fits(tag, r)
  {
    if Fits(tag, r) {
      assert forall c :: c in r.classes ==> c in Members(r.classes) && c in Members(tag.classes);
    }
  }

  /** The rules are met in order by the tags numbered `idx`. */
  ghost predicate Meets(rules: seq<Rule>, ts: seq<Node>, idx: seq<nat>) {
    && |idx| == |rules|
    && (forall j, k :: 0 <= j < k < |idx| ==> idx[j] < idx[k])
    && (forall j :: 0 <= j < |idx| ==> idx[j] < |ts| && Fits(ts[idx[j]], rules[j]))
  }

  /** The rules are met somewhere on the way, the last of them by the last tag. */
  ghost predicate Selects(rules: seq<Rule>, ts: seq<Node>) {
    rules != [] && ts != [] && exists idx :: Meets(rules, ts, idx) && idx[|idx| - 1] == |ts| - 1
  }

  ghost predicate Topmost(rules: seq<Rule>, ts: seq<Node>) {
    Selects(rules, ts) && forall n :: 0 <= n < |ts| ==> !Selects(rules, ts[..n])
  }

  ghost predicate Before(p: Path, q: Path) {
    p < q || exists k :: 0 <= k < |p| && k < |q| && p[..k] == q[..k] && p[k] < q[k]
  }

  // ---- Greedy matching is as good as any ----

  /** How many rules a walk along `ts` uses up when it takes each at the first chance. */
  ghost function Progress(rules: seq<Rule>, ts: seq<Node>): (r: nat)
    ensures r <= |rules|
  {
    if ts == [] then 0 else NextRule(rules, Progress(rules, ts[..|ts| - 1]), ts[|ts| - 1])
  }

  lemma {:induction false} GreedyIsBest(rules: seq<Rule>, ts: seq<Node>, j: nat, idx: seq<nat>)
    requires j <= |rules| && Meets(rules[..j], ts, idx)
    ensures j <= Progress(rules, ts)
    decreases |ts|
  {
    if 0 < j {
      assert Fits(ts[idx[j - 1]], rules[..j][j - 1]);
      CheckIsFits(ts[|ts| - 1], rules[j - 1]);
      var front := ts[..|ts| - 1];
      if idx[j - 1] == |ts| - 1 {
        assert rules[..j - 1] == rules[..j][..j - 1];
        assert forall k :: 0 <= k < j - 1 ==> idx[..j - 1][k] < |front| && front[idx[k]] == ts[idx[k]];
        GreedyIsBest(rules, front, j - 1, idx[..j - 1]);
      } else {
        assert forall k :: 0 <= k < j ==> idx[k] <= idx[j - 1];
        GreedyIsBest(rules, front, j, idx);
      }
    }
  }

  lemma {:induction false} GreedyMeets(rules: seq<Rule>, ts: seq<Node>) returns (idx: seq<nat>)
    ensures Meets(rules[..Progress(rules, ts)], ts, idx)
    decreases |ts|
  {
    if ts == [] {
      idx := [];
    } else {
      var front := ts[..|ts| - 1];
      idx := GreedyMeets(rules, front);
      if Progress(rules, ts) != Progress(rules, front) {
        CheckIsFits(ts[|ts| - 1], rules[|idx|]);
        idx := idx + [|ts| - 1];
      }
    }
  }

  lemma {:induction false} ProgressGrows(rules: seq<Rule>, ts: seq<Node>, n: nat)
    requires n <= |ts|
    ensures Progress(rules, ts[..n]) <= Progress(rules, ts)
    decreases |ts|
  {
    if n < |ts| {
      ProgressGrows(rules, ts[..|ts| - 1], n);
      assert ts[..|ts| - 1][..n] == ts[..n];
    } else {
      assert ts[..n] == ts;
    }
  }

  /** The last rule is used up at exactly this tag. */
  ghost predicate Hits(rules: seq<Rule>, ts: seq<Node>) {
    ts != [] && Progress(rules, ts) == |rules| && Progress(rules, ts[..|ts| - 1]) < |rules|
  }

  lemma HitSelects(rules: seq<Rule>, ts: seq<Node>)
    requires Hits(rules, ts)
    ensures Selects(rules, ts)
  {
    var front, r := ts[..|ts| - 1], |rules| - 1;
    var idx := GreedyMeets(rules, front);
    assert rules[..r + 1] == rules;
    assert Meets(rules, ts, idx + [|ts| - 1]);
  }

  lemma SelectsIsProgress(rules: seq<Rule>, ts: seq<Node>)
    requires Selects(rules, ts)
    ensures Progress(rules, ts) == |rules|
  {
    var idx :| Meets(rules, ts, idx) && idx[|idx| - 1] == |ts| - 1;
    assert rules[..|rules|] == rules;
    GreedyIsBest(rules, ts, |rules|, idx);
  }

  lemma {:induction false} SomePrefixHits(rules: seq<Rule>, ts: seq<Node>) returns (n: nat)
    requires rules != [] && Progress(rules, ts) == |rules|
    ensures n <= |ts| && Hits(rules, ts[..n])
    decreases |ts|
  {
    if Hits(rules, ts) {
      n := |ts|;
      assert ts[..n] == ts;
    } else {
      n := SomePrefixHits(rules, ts[..|ts| - 1]);
      assert ts[..|ts| - 1][..n] == ts[..n];
    }
  }

  /** The greedy walk stops at the topmost selected tag, no sooner and no later. */
  lemma HitsIsTopmost(rules: seq<Rule>, ts: seq<Node>)
    ensures Hits(rules, ts) <==> Topmost(rules, ts)
  {
    if Hits(rules, ts) {
      HitSelects(rules, ts);
      forall n | 0 <= n < |ts|
        ensures !Selects(rules, ts[..n])
      {
        ProgressGrows(rules, ts[..|ts| - 1], n);
        assert ts[..|ts| - 1][..n] == ts[..n];
        if Selects(rules, ts[..n]) {
          SelectsIsProgress(rules, ts[..n]);
        }
      }
    }
    if Topmost(rules, ts) {
      SelectsIsProgress(rules, ts);
      if Progress(rules, ts[..|ts| - 1]) == |rules| {
        var n := SomePrefixHits(rules, ts[..|ts| - 1]);
        assert ts[..|ts| - 1][..n] == ts[..n];
        HitSelects(rules, ts[..n]);
      }
    }
  }

  // ---- The search of a whole tree ----

  /** Below `node`, which stands at `at` under the tags `above`, the tag at `q` is to be reported. */
  ghost predicate Reports(rules: seq<Rule>, node: Node, at: Path, above: seq<Node>, q: Path) {
    at <= q && IsTagPath(node, q[|at|..]) && Hits(rules, above + TagsAlong(node, q[|at|..]))
  }

  lemma NothingBelowAHit(rules: seq<Rule>, above: seq<Node>, ts: seq<Node>)
    requires Progress(rules, above) == |rules| && ts != []
    ensures !Hits(rules, above + ts)
  {
    var front := (above + ts)[..|above| + |ts| - 1];
    ProgressGrows(rules, front, |above|);
    assert front[..|above|] == above;
  }

  lemma ProgressThen(rules: seq<Rule>, above: seq<Node>, tag: Node)
    ensures Progress(rules, above + [tag]) == NextRule(rules, Progress(rules, above), tag)
  {
    assert (above + [tag])[..|above|] == above;
  }

  lemma OneStepDown(at: Path, q: Path)
    requires at < q
    ensures q[|at|..] == [q[|at|]] + q[|at| + 1..] && at + [q[|at|]] <= q
  {
  }

  lemma TagsBelow(node: Node, above: seq<Node>, i: nat, p: Path)
    requires node.Tag?
    ensures IsTagPath(node, [i] + p) <==> i < |node.children| && IsTagPath(node.children[i], p)
    ensures IsTagPath(node, [i] + p) ==>
            above + TagsAlong(node, [i] + p) == above + [node] + TagsAlong(node.children[i], p)
  {
    assert ([i] + p)[1..] == p;
  }

  /** A tag below `node` is the tag itself or below one of its children. */
  lemma ReportsBelow(rules: seq<Rule>, node: Node, at: Path, above: seq<Node>, q: Path)
    requires node.Tag?
    ensures Reports(rules, node, at, above, q) <==>
              || (q == at && Hits(rules, above + [node]))
              || (at < q && q[|at|] < |node.children|
                  && Reports(rules, node.children[q[|at|]], at + [q[|at|]], above + [node], q))
  {
    if at < q {
      OneStepDown(at, q);
      TagsBelow(node, above, q[|at|], q[|at| + 1..]);
    } else if at == q {
      assert q[|at|..] == [] && TagsAlong(node, []) == [node];
    }
  }

  lemma NoReportPastAHit(rules: seq<Rule>, node: Node, at: Path, above: seq<Node>, q: Path)
    requires node.Tag? && Progress(rules, above) == |rules|
    ensures !Reports(rules, node, at, above, q)
  {
    if at <= q && IsTagPath(node, q[|at|..]) {
      NothingBelowAHit(rules, above, TagsAlong(node, q[|at|..]));
    }
  }

  lemma NothingReportsBelowAHit(rules: seq<Rule>, node: Node, at: Path, above: seq<Node>, q: Path)
    requires node.Tag? && Hits(rules, above + [node]) && at < q
    ensures !Reports(rules, node, at, above, q)
  {
    if IsTagPath(node, q[|at|..]) {
      var ts := TagsAlong(node, q[|at|..]);
      assert above + ts == above + [node] + ts[1..];
      NothingBelowAHit(rules, above + [node], ts[1..]);
    }
  }

  lemma OnlyTheHitReports(rules: seq<Rule>, node: Node, at: Path, above: seq<Node>, q: Path)
    requires node.Tag? && Hits(rules, above + [node])
    ensures Reports(rules, node, at, above, q) <==> q == at
  {
    if at < q {
      NothingReportsBelowAHit(rules, node, at, above, q);
    } else if at == q {
      ReportsBelow(rules, node, at, above, q);
    }
  }

  lemma {:induction false} FoundIs(rules: seq<Rule>, node: Node, at: Path, above: seq<Node>, q: Path)
    ensures q in Found(rules, node, at, Progress(rules, above)) <==> Reports(rules, node, at, above, q)
    decreases node, |Children(node)| + 1
  {
    var rule := Progress(rules, above);
    if node.Tag? {
      ProgressThen(rules, above, node);
      assert (above + [node])[..|above|] == above;
      if rule == |rules| {
        NoReportPastAHit(rules, node, at, above, q);
      } else if Hits(rules, above + [node]) {
        OnlyTheHitReports(rules, node, at, above, q);
      } else {
        ReportsBelow(rules, node, at, above, q);
        FoundBelowIs(rules, node, at, above, 0, q);
      }
    }
  }

  lemma {:induction false} FoundBelowIs(rules: seq<Rule>, node: Node, at: Path, above: seq<Node>, i: nat, q: Path)
    requires node.Tag? && i <= |node.children|
    ensures q in FoundBelow(rules, node, at, Progress(rules, above + [node]), i) <==>
              at < q && i <= q[|at|] < |node.children|
                && Reports(rules, node.children[q[|at|]], at + [q[|at|]], above + [node], q)
    decreases node, |node.children| - i
  {
    if i < |node.children| {
      FoundIs(rules, node.children[i], at + [i], above + [node], q);
      FoundBelowIs(rules, node, at, above, i + 1, q);
      if at + [i] <= q {
        assert q[..|at| + 1] == at + [i];
        assert q[..|at|] == at && q[|at|] == i;
      }
    }
  }

  ghost predicate InOrder(ps: seq<Path>) {
    forall j, k :: 0 <= j < k < |ps| ==> Before(ps[j], ps[k])
  }

  lemma OrderInTwo(at: Path, i: nat, a: seq<Path>, b: seq<Path>)
    requires InOrder(a) && InOrder(b)
    requires forall p :: p in a ==> at + [i] <= p
    requires forall p :: p in b ==> at < p && i < p[|at|]
    ensures InOrder(a + b)
  {
    forall j, k | 0 <= j < k < |a + b|
      ensures Before((a + b)[j], (a + b)[k])
    {
      if j < |a| <= k {
        var p, q := a[j], b[k - |a|];
        assert p in a && q in b;
        assert p[..|at| + 1] == at + [i] && q[..|at|] == at;
        assert p[|at|] == i && p[..|at|] == at;
      }
    }
  }

  lemma {:induction false} FoundInOrder(rules: seq<Rule>, node: Node, at: Path, rule: nat)
    ensures InOrder(Found(rules, node, at, rule)) && forall p :: p in Found(rules, node, at, rule) ==> at <= p
    decreases node, |Children(node)| + 1
  {
    if node.Tag? && rule < |rules| && !(Check(node, rules[rule]) && rule == |rules| - 1) {
      FoundBelowInOrder(rules, node, at, NextRule(rules, rule, node), 0);
    }
  }

  lemma {:induction false} FoundBelowInOrder(rules: seq<Rule>, node: Node, at: Path, rule: nat, i: nat)
    requires i <= |Children(node)|
    ensures InOrder(FoundBelow(rules, node, at, rule, i))
    ensures forall p :: p in FoundBelow(rules, node, at, rule, i) ==> at < p && i <= p[|at|]
    decreases node, |Children(node)| - i
  {
    if i < |Children(node)| {
      FoundInOrder(rules, Children(node)[i], at + [i], rule);
      FoundBelowInOrder(rules, node, at, rule, i + 1);
      var a, b := Found(rules, Children(node)[i], at + [i], rule), FoundBelow(rules, node, at, rule, i + 1);
      OrderInTwo(at, i, a, b);
      forall p | p in a
        ensures at < p && i <= p[|at|]
      {
        assert p[..|at| + 1] == at + [i];
        assert p[|at|] == i && p[..|at|] == at;
      }
    }
  }

  /** A query reports exactly the topmost tags on whose way down the rules are met in order, the
      last of them by the tag itself; each once, in document order. */
  lemma SearchIsExact(rules: seq<Rule>, root: Node)
    ensures forall q :: q in Found(rules, root, [], 0) <==> IsTagPath(root, q) && Topmost(rules, TagsAlong(root, q))
    ensures InOrder(Found(rules, root, [], 0))
  {
    FoundInOrder(rules, root, [], 0);
    forall q
      ensures q in Found(rules, root, [], 0) <==> IsTagPath(root, q) && Topmost(rules, TagsAlong(root, q))
    {
      FoundIs(rules, root, [], [], q);
      assert q[0..] == q;
      if IsTagPath(root, q) {
        assert [] + TagsAlong(root, q) == TagsAlong(root, q);
        HitsIsTopmost(rules, TagsAlong(root, q));
      }
    }
  }
}
