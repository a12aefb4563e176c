/** Saving the master's directory tree and loading it again. */
module DirectoryArchive {
  import opened Common

  /** One value on the stream. */
  datatype Token = Str(s: string) | Num(n: int) | Flag(b: bool)

  datatype Meta = Meta(name: string, owner: string, ownerGroup: string, authority: int,
                       createTime: int, updateTime: int, deleted: bool, deleteTick: int)

  datatype Node = File(meta: Meta, id: int, size: nat) | Dir(meta: Meta, children: map<string, Node>)

  /** A tree with the order in which each directory's child map is walked. */
  datatype Ordered = OFile(meta: Meta, id: int, size: nat) | ODir(meta: Meta, kids: seq<Ordered>)

  // ---- Writing and reading one node ----

  function SaveMeta(m: Meta): seq<Token> {
    [Str(m.name), Str(m.owner), Str(m.ownerGroup), Num(m.authority), Num(m.createTime), Num(m.updateTime),
     Flag(m.deleted), Num(m.deleteTick)]
  }

  function Save(o: Ordered): seq<Token>
    decreases o, 0
  {
    match o
    case OFile(meta, id, _) => SaveMeta(meta) + [Num(id)]
    case ODir(meta, kids) => SaveMeta(meta) + [Num(|kids|)] + SaveKids(o, 0)
  }

  function SaveKids(o: Ordered, i: nat): seq<Token>
    requires o.ODir? && i <= |o.kids|
    decreases o, 0, |o.kids| - i
  {
    if i == |o.kids| then [] else [Flag(o.kids[i].ODir?)] + Save(o.kids[i]) + SaveKids(o, i + 1)
  }

  function LoadMeta(ts: seq<Token>): Option<Meta> {
    if 8 <= |ts| && ts[0].Str? && ts[1].Str? && ts[2].Str? && ts[3].Num? && ts[4].Num? && ts[5].Num?
       && ts[6].Flag? && ts[7].Num?
    then Some(Meta(ts[0].s, ts[1].s, ts[2].s, ts[3].n, ts[4].n, ts[5].n, ts[6].b, ts[7].n))
    else None
  }

  /** What is read and what is left of the stream; None: the stream has failed. */
  datatype Loaded<T> = Loaded(value: T, rest: seq<Token>)

  function Load(ts: seq<Token>, dir: bool): (r: Option<Loaded<Node>>)
    ensures r.Some? ==> |r.value.rest| < |ts|
    decreases |ts|, 0
  {
    var meta := LoadMeta(ts);
    if meta.None? || |ts| < 9 || !ts[8].Num? then None
    else if !dir then Some(Loaded(File(meta.value, ts[8].n, 0), ts[9..]))
    else
      var kids := LoadKids(ts[9..], ts[8].n, map[]);
      if kids.None? then None else Some(Loaded(Dir(meta.value, kids.value.value), kids.value.rest))
  }

  function LoadKids(ts: seq<Token>, count: int, children: map<string, Node>): (r: Option<Loaded<map<string, Node>>>)
    ensures r.Some? ==> |r.value.rest| <= |ts|
    decreases |ts|, 1
  {
    if count <= 0 then Some(Loaded(children, ts))
    else if ts == [] || !ts[0].Flag? then None
    else
      var node := Load(ts[1..], ts[0].b);
      if node.None? then None
      else LoadKids(node.value.rest, count - 1, children[node.value.value.meta.name := node.value.value])
  }

  // ---- The loops ----

  /** Writes a directory, walking its children in the given order. */
  method SaveDirectory(o: Ordered) returns (ts: seq<Token>)
    requires o.ODir?
    ensures ts == Save(o)
    decreases o
  {
    ts := SaveMeta(o.meta) + [Num(|o.kids|)];
    for i := 0 to |o.kids|
      invariant ts + SaveKids(o, i) == Save(o)
    {
      var kid := o.kids[i];
      var more;
      if kid.ODir? {
        more := SaveDirectory(kid);
      } else {
        more := SaveMeta(kid.meta) + [Num(kid.id)];
      }
      SaveStep(o, i, ts);
      ts := ts + [Flag(kid.ODir?)] + more;
    }
  }

  lemma SaveStep(o: Ordered, i: nat, ts: seq<Token>)
    requires o.ODir? && i < |o.kids|
    ensures ts + SaveKids(o, i) == ts + [Flag(o.kids[i].ODir?)] + Save(o.kids[i]) + SaveKids(o, i + 1)
  {
  }

  /** Reads a directory; `ok` is false if the stream fails. */
  method LoadDirectory(ts: seq<Token>) returns (ok: bool, node: Node, rest: seq<Token>)
    ensures ok == Load(ts, true).Some?
    ensures ok ==> Load(ts, true) == Some(Loaded(node, rest))
    decreases |ts|
  {
    node, rest := Dir(Meta("", "", "", 0, 0, 0, false, 0), map[]), ts;
    var meta := LoadMeta(ts);
    if meta.None? || |ts| < 9 || !ts[8].Num? {
      return false, node, rest;
    }
    var count, children := ts[8].n, map[];
    rest := ts[9..];
    var i := 0;
    while i < count
      invariant i == 0 || i <= count
      invariant |rest| < |ts| && LoadKids(rest, count - i, children) == LoadKids(ts[9..], count, map[])
      decreases count - i
    {
      if rest == [] || !rest[0].Flag? {
        return false, node, rest;
      }
      var child;
      if rest[0].b {
        ok, child, rest := LoadDirectory(rest[1..]);
        if !ok {
          return;
        }
      } else {
        var file := Load(rest[1..], false);
        if file.None? {
          return false, node, rest;
        }
        child, rest := file.value.value, file.value.rest;
      }
      children := children[child.meta.name := child];
      i := i + 1;
    }
    ok, node := true, Dir(meta.value, children);
  }

  // ---- The round trip ----

  /** `o` is a walk of `t`: every child once, under its own name, each walked in some order itself. */
  ghost predicate WalkOf(o: Ordered, t: Node)
    decreases o
  {
    match t
    case File(meta, id, size) => o == OFile(meta, id, size)
    case Dir(meta, children) =>
      && o.ODir? && o.meta == meta
      && (forall i, j :: 0 <= i < j < |o.kids| ==> o.kids[i].meta.name != o.kids[j].meta.name)
      && (forall i :: 0 <= i < |o.kids| ==>
          o.kids[i].meta.name in children && WalkOf(o.kids[i], children[o.kids[i].meta.name]))
      && (forall k :: k in children ==> NamedBefore(o.kids, |o.kids|, k))
  }

  ghost predicate NamedBefore(kids: seq<Ordered>, i: nat, k: string)
    requires i <= |kids|
  {
    exists j :: 0 <= j < i && kids[j].meta.name == k
  }

  /** What the archive keeps: everything but the sizes, which come back from the chunk servers' reports. */
  function Archived(t: Node): Node {
    match t
    case File(meta, id, _) => File(meta, id, 0)
    case Dir(meta, children) => Dir(meta, map k | k in children :: Archived(children[k]))
  }

  /** The children loaded once the first `i` have been read. */
  ghost function FirstKids(o: Ordered, t: Node, i: nat): map<string, Node>
    requires o.ODir? && t.Dir? && i <= |o.kids|
  {
    map k | k in t.children && NamedBefore(o.kids, i, k) :: Archived(t.children[k])
  }

  lemma LoadMetaOfSave(m: Meta, more: seq<Token>)
    ensures LoadMeta(SaveMeta(m) + more) == Some(m)
  {
  }

  lemma WalkedKid(o: Ordered, t: Node, i: nat)
    requires t.Dir? && WalkOf(o, t) && i < |o.kids|
    ensures o.kids[i].meta.name in t.children && WalkOf(o.kids[i], t.children[o.kids[i].meta.name])
    ensures Archived(t.children[o.kids[i].meta.name]).meta.name == o.kids[i].meta.name
    ensures FirstKids(o, t, i)[o.kids[i].meta.name := Archived(t.children[o.kids[i].meta.name])] ==
            FirstKids(o, t, i + 1)
  {
    var name := o.kids[i].meta.name;
    assert WalkOf(o.kids[i], t.children[name]);
    forall k
      ensures NamedBefore(o.kids, i + 1, k) <==> NamedBefore(o.kids, i, k) || k == name
    {
      assert o.kids[i].meta.name == name;
      if j :| 0 <= j < i && o.kids[j].meta.name == k {
        assert j < i + 1;
      }
    }
  }

  /** Loading what was saved gives the archived tree back and stops exactly behind it. */
  lemma {:induction false} LoadOfSave(o: Ordered, t: Node, rest: seq<Token>)
    requires WalkOf(o, t)
    ensures Load(Save(o) + rest, o.ODir?) == Some(Loaded(Archived(t), rest))
    decreases o, 1
  {
    match o
    case OFile(meta, id, _) =>
      LoadMetaOfSave(meta, [Num(id)] + rest);
      assert Save(o) + rest == SaveMeta(meta) + ([Num(id)] + rest);
      assert (Save(o) + rest)[9..] == rest;
    case ODir(meta, kids) =>
      var body := SaveKids(o, 0) + rest;
      LoadMetaOfSave(meta, [Num(|kids|)] + body);
      assert Save(o) + rest == SaveMeta(meta) + ([Num(|kids|)] + body);
      assert (Save(o) + rest)[9..] == body;
      assert FirstKids(o, t, 0) == map[];
      LoadKidsOfSave(o, t, |kids|, rest);
      AllKids(o, t);
      assert [] + rest == rest;
  }

  /** One turn of the loading loop. */
  lemma LoadKidsStep(dir: bool, ts: seq<Token>, count: int, children: map<string, Node>, node: Node, rest: seq<Token>)
    requires 0 < count && Load(ts, dir) == Some(Loaded(node, rest))
    ensures LoadKids([Flag(dir)] + ts, count, children) == LoadKids(rest, count - 1, children[node.meta.name := node])
  {
    assert ([Flag(dir)] + ts)[1..] == ts;
  }

  lemma SavedKid(o: Ordered, i: nat, rest: seq<Token>)
    requires o.ODir? && i < |o.kids|
    ensures SaveKids(o, i) + rest == [Flag(o.kids[i].ODir?)] + (Save(o.kids[i]) + (SaveKids(o, i + 1) + rest))
  {
  }

  lemma AllKids(o: Ordered, t: Node)
    requires t.Dir? && WalkOf(o, t)
    ensures FirstKids(o, t, |o.kids|) == Archived(t).children
  {
  }

  /** Where the loading loop stands after `i` children. */
  ghost function After(o: Ordered, t: Node, i: nat, rest: seq<Token>): Option<Loaded<map<string, Node>>>
    requires o.ODir? && t.Dir? && i <= |o.kids|
  {
    LoadKids(SaveKids(o, i) + rest, |o.kids| - i, FirstKids(o, t, i))
  }

  lemma AfterOneKid(o: Ordered, t: Node, i: nat, rest: seq<Token>, node: Node)
    requires o.ODir? && t.Dir? && i < |o.kids|
    requires FirstKids(o, t, i)[node.meta.name := node] == FirstKids(o, t, i + 1)
    requires var more := SaveKids(o, i + 1) + rest;
             Load(Save(o.kids[i]) + more, o.kids[i].ODir?) == Some(Loaded(node, more))
    ensures After(o, t, i, rest) == After(o, t, i + 1, rest)
  {
    var dir, ts, more, count := o.kids[i].ODir?, Save(o.kids[i]), SaveKids(o, i + 1) + rest, |o.kids| - i;
    var kids, kids' := FirstKids(o, t, i), FirstKids(o, t, i + 1);
    assert SaveKids(o, i) + rest == [Flag(dir)] + (ts + more) by {
      SavedKid(o, i, rest);
    }
    assert LoadKids([Flag(dir)] + (ts + more), count, kids) == LoadKids(more, count - 1, kids') by {
      LoadKidsStep(dir, ts + more, count, kids, node, more);
    }
  }

  lemma {:induction false} LoadKidsOfSave(o: Ordered, t: Node, i: nat, rest: seq<Token>)
    requires t.Dir? && WalkOf(o, t) && i <= |o.kids|
    ensures After(o, t, 0, rest) == After(o, t, i, rest)
    decreases o, 0, i
  {
    if 0 < i {
      var kid := o.kids[i - 1];
      LoadKidsOfSave(o, t, i - 1, rest);
      WalkedKid(o, t, i - 1);
      LoadOfSave(kid, t.children[kid.meta.name], SaveKids(o, i) + rest);
      AfterOneKid(o, t, i - 1, rest, Archived(t.children[kid.meta.name]));
    }
  }

  /** Two walks of one tree, however different the streams, load as the same tree. */
  lemma WalkOrderDoesNotMatter(o: Ordered, o': Ordered, t: Node)
    requires WalkOf(o, t) && WalkOf(o', t)
    ensures Load(Save(o), o.ODir?) == Load(Save(o'), o'.ODir?) == Some(Loaded(Archived(t), []))
  {
    LoadOfSave(o, t, []);
    LoadOfSave(o', t, []);
    assert Save(o) + [] == Save(o) && Save(o') + [] == Save(o');
  }

  /** A stream cut short never loads: the failure is noticed. */
  lemma {:induction false} CutStreamFails(o: Ordered, t: Node, n: nat)
    requires WalkOf(o, t) && n < |Save(o)|
    ensures Load(Save(o)[..n], o.ODir?).None?
  {
    LoadOfSave(o, t, []);
    assert Save(o) + [] == Save(o) && Save(o)[..n] + Save(o)[n..] == Save(o);
    if Load(Save(o)[..n], o.ODir?).Some? {
      LoadMore(Save(o)[..n], o.ODir?, Save(o)[n..]);
    }
  }

  /** More behind a stream that loads makes no difference to what is loaded. */
  lemma {:induction false} LoadMore(ts: seq<Token>, dir: bool, more: seq<Token>)
    requires Load(ts, dir).Some?
    ensures Load(ts + more, dir) == Some(Loaded(Load(ts, dir).value.value, Load(ts, dir).value.rest + more))
    decreases |ts|, 0
  {
    assert (ts + more)[9..] == ts[9..] + more;
    if dir {
      LoadKidsMore(ts[9..], ts[8].n, map[], more);
    }
  }

  lemma {:induction false} LoadKidsMore(ts: seq<Token>, count: int, children: map<string, Node>, more: seq<Token>)
    requires LoadKids(ts, count, children).Some?
    ensures var r := LoadKids(ts, count, children).value;
            LoadKids(ts + more, count, children) == Some(Loaded(r.value, r.rest + more))
    decreases |ts|, 1
  {
    if 0 < count {
      assert (ts + more)[1..] == ts[1..] + more;
      LoadMore(ts[1..], ts[0].b, more);
      var node := Load(ts[1..], ts[0].b).value;
      LoadKidsMore(node.rest, count - 1, children[node.value.meta.name := node.value], more);
    }
  }

  // ---- Every tree has a walk ----

  /** Every node is filed under its own name. */
  ghost predicate WellNamed(t: Node) {
    t.Dir? ==> forall k :: k in t.children ==> t.children[k].meta.name == k && WellNamed(t.children[k])
  }

  lemma {:induction false} SomeWalk(t: Node) returns (o: Ordered)
    requires WellNamed(t)
    ensures WalkOf(o, t)
    decreases t, 1
  {
    match t
    case File(meta, id, size) =>
      o := OFile(meta, id, size);
    case Dir(meta, children) =>
      var kids := SomeWalkOfKids(t, children.Keys);
      o := ODir(meta, kids);
  }

  lemma {:induction false} SomeWalkOfKids(t: Node, names: set<string>) returns (kids: seq<Ordered>)
    requires t.Dir? && WellNamed(t) && names <= t.children.Keys
    ensures forall i, j :: 0 <= i < j < |kids| ==> kids[i].meta.name != kids[j].meta.name
    ensures forall i :: 0 <= i < |kids| ==> kids[i].meta.name in names && WalkOf(kids[i], t.children[kids[i].meta.name])
    ensures forall k :: k in names ==> NamedBefore(kids, |kids|, k)
    decreases t, 0, names
  {
    if name :| name in names {
      var kid := SomeWalk(t.children[name]);
      var rest := SomeWalkOfKids(t, names - {name});
      kids := rest + [kid];
      assert kids[|rest|].meta.name == name;
      forall k | k in names
        ensures NamedBefore(kids, |kids|, k)
      {
        if k != name {
          assert k in names - {name} && NamedBefore(rest, |rest|, k);
          var j :| 0 <= j < |rest| && rest[j].meta.name == k;
          assert kids[j].meta.name == k;
        }
      }
    } else {
      kids := [];
    }
  }
}
