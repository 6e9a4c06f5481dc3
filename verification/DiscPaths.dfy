/** Printing paths and reading them back. */
module DiscPaths {
  import opened DiscTree

  // ----- trees whose names can be told apart

  /** No node of `f` bears the name `c`, whatever the case of its letters. */
  predicate NoneNamed(f: Forest, c: string) {
    match f case Nil => true case Cons(h, t) => Fold(h.name) != Fold(c) && NoneNamed(t, c)
  }

  predicate Distinct(f: Forest) {
    match f case Nil => true case Cons(h, t) => NoneNamed(t, h.name) && Distinct(t)
  }

  /** A name that a path can hold: not empty, without a slash, not one of the two dot names. */
  predicate LegalName(c: string) {
    c != [] && '/' !in c && c != "." && c != ".."
  }

  /** Legal names, siblings told apart whatever the case of their letters. */
  predicate LegalTree(n: Node) {
    match n case File(_, _, _) => true case Dir(_, kids) => Distinct(kids) && LegalForest(kids)
  }

  predicate LegalForest(f: Forest) {
    match f case Nil => true case Cons(h, t) => LegalName(h.name) && LegalTree(h) && LegalForest(t)
  }

  lemma {:induction false} LegalChild(f: Forest, i: nat, s: Spot)
    requires LegalForest(f) && IsChild(f, i, s)
    ensures LegalName(s.n.name) && LegalTree(s.n)
    decreases f
  {
    match f case Cons(h, t) => if s != Spot(i, h) { LegalChild(t, i + Size(h), s); }
  }

  /** Every name from component `k` on is short, unless long names are accepted. */
  ghost predicate Readable(long: bool, trail: seq<Spot>, k: nat) {
    long || forall i :: k <= i < |trail| ==> Short(trail[i].n.name)
  }

  lemma {:induction false} NamedAfter(f: Forest, i: nat, s: Spot, c: string)
    requires NoneNamed(f, c) && IsChild(f, i, s)
    ensures Fold(s.n.name) != Fold(c)
    decreases f
  {
    match f case Cons(h, t) => if s != Spot(i, h) { NamedAfter(t, i + Size(h), s, c); }
  }

  /** Among distinct names the lookup finds the node that bears the name. */
  lemma {:induction false} FindsNamed(f: Forest, i: nat, s: Spot, wantDir: bool)
    requires Distinct(f) && IsChild(f, i, s) && (wantDir ==> s.n.Dir?)
    ensures FindChild(f, i, s.n.name, wantDir) == Some(s)
    decreases f
  {
    match f
    case Cons(h, t) =>
      if s != Spot(i, h) {
        NamedAfter(t, i + Size(h), s, h.name);
        FindsNamed(t, i + Size(h), s, wantDir);
      }
  }

  lemma {:induction false} LegalTrail(root: Node, trail: seq<Spot>, k: nat)
    requires Trail(root, trail) && LegalTree(root) && k < |trail|
    ensures LegalTree(trail[k].n) && (k > 0 ==> LegalName(trail[k].n.name))
  {
    if k > 0 {
      LegalTrail(root, trail, k - 1);
      assert Child(trail[k - 1], trail[k]);
      LegalChild(trail[k - 1].n.kids, trail[k - 1].i + 1, trail[k]);
    }
  }

  // ----- printing

  /** The path of a directory as the recursive printer builds it. */
  function PathOf(trail: seq<Spot>): string {
    if |trail| <= 1 then "" else PathOf(trail[..|trail| - 1]) + "/" + trail[|trail| - 1].n.name
  }

  /** The printed path of a directory ends in a slash. */
  function FullPath(trail: seq<Spot>): string { PathOf(trail) + "/" }

  /** What follows the slash behind component `k`. */
  function Rest(trail: seq<Spot>, k: nat): string
    decreases |trail| - k
  {
    if k + 1 >= |trail| then "" else trail[k + 1].n.name + "/" + Rest(trail, k + 1)
  }

  lemma {:induction false} RestSnoc(trail: seq<Spot>, s: Spot, k: nat)
    requires k < |trail|
    ensures Rest(trail + [s], k) == Rest(trail, k) + s.n.name + "/"
    decreases |trail| - k
  {
    var u := trail + [s];
    if k + 1 == |trail| {
      assert Rest(u, k + 1) == "" && Rest(trail, k) == "";
      assert Rest(u, k) == s.n.name + "/" + "" == "" + s.n.name + "/";
    } else {
      RestSnoc(trail, s, k + 1);
      assert u[k + 1] == trail[k + 1];
      var a := trail[k + 1].n.name + "/";
      assert a + (Rest(trail, k + 1) + s.n.name + "/") == a + Rest(trail, k + 1) + s.n.name + "/";
    }
  }

  lemma {:induction false} FullIsRest(trail: seq<Spot>)
    requires trail != []
    ensures FullPath(trail) == "/" + Rest(trail, 0)
  {
    if |trail| > 1 {
      var n := |trail| - 1;
      FullIsRest(trail[..n]);
      RestSnoc(trail[..n], trail[n], 0);
      assert trail[..n] + [trail[n]] == trail;
      var r := Rest(trail[..n], 0);
      assert PathOf(trail[..n]) + "/" + trail[n].n.name + "/" == FullPath(trail[..n]) + trail[n].n.name + "/";
      assert "/" + r + trail[n].n.name + "/" == "/" + (r + trail[n].n.name + "/");
    } else {
      assert PathOf(trail) == "" && Rest(trail, 0) == "";
    }
  }

  // ----- reading back

  /** A legal name in front of a slash is read as one component, and never as a dot name. */
  lemma ReadsName(c: string, r: string)
    requires c != [] && '/' !in c && c != "." && c != ".."
    ensures var p := c + "/" + r;
      && p != [] && p[0] != '/' && Component(p) == c && p[|c| + 1..] == r && |c| < |p|
      && !(|p| >= 3 && p[..3] == "../") && p != ".." && !(|p| >= 2 && p[..2] == "./") && p != "."
  {
    var p := c + "/" + r;
    assert p[..|c|] == c && p[|c|] == '/';
    ComponentUnique(p, |c|);
    assert p[0] == c[0] && c[0] in c;
    if |c| == 1 {
      assert c == [c[0]] && p[..2] == c + "/";
    } else if |c| == 2 {
      assert c == [c[0], c[1]] && p[..3] == c + "/" && c[1] in c && p[1] == c[1];
    } else {
      assert p[1] == c[1] && c[1] in c && p[2] == c[2] && c[2] in c;
    }
    assert "/" == ['/'] && "." == ['.'] && ".." == ['.', '.'] && "../" == ['.', '.', '/'] && "./" == ['.', '/'];
  }

  lemma ResolveName(root: Node, long: bool, trail: seq<Spot>, s: Spot, r: string)
    requires Trail(root, trail) && LegalTree(root) && Child(trail[|trail| - 1], s) && s.n.Dir?
    ensures Resolve(root, long, trail, s.n.name + "/" + r) ==
      if long || Short(s.n.name) then Resolve(root, long, trail + [s], r) else NotFound
  {
    var d := trail[|trail| - 1];
    LegalTrail(root, trail, |trail| - 1);
    LegalChild(d.n.kids, d.i + 1, s);
    ReadsName(s.n.name, r);
    FindsNamed(d.n.kids, d.i + 1, s, true);
  }

  lemma {:induction false} ResolveRest(root: Node, long: bool, trail: seq<Spot>, k: nat)
    requires Trail(root, trail) && LegalTree(root) && k < |trail|
    ensures Trail(root, trail[..k + 1])
    ensures Resolve(root, long, trail[..k + 1], Rest(trail, k)) ==
      if Readable(long, trail, k + 1) then Found(trail) else NotFound
    decreases |trail| - k
  {
    TrailPrefix(root, trail, k + 1);
    if k + 1 == |trail| {
      assert trail[..k + 1] == trail;
    } else {
      ResolveRest(root, long, trail, k + 1);
      assert Child(trail[k], trail[k + 1]);
      assert trail[..k + 2] == trail[..k + 1] + [trail[k + 1]];
      ResolveName(root, long, trail[..k + 1], trail[k + 1], Rest(trail, k + 1));
    }
  }

  lemma TrailPrefix(root: Node, trail: seq<Spot>, k: nat)
    requires Trail(root, trail) && 0 < k <= |trail|
    ensures Trail(root, trail[..k])
  {
    forall i, j | 0 <= i && j == i + 1 < k ensures Child(trail[..k][i], trail[..k][j]) {
      assert Child(trail[i], trail[j]);
    }
  }

  /** Reading the printed path of a directory, from wherever one stands, leads back to that directory, except when a
      name on the way breaks the 8.3 rule and long names are not accepted: then it leads nowhere. */
  lemma PrintThenParse(root: Node, long: bool, trail: seq<Spot>, here: seq<Spot>)
    requires Trail(root, trail) && LegalTree(root)
    ensures Resolve(root, long, here, FullPath(trail)) == if Readable(long, trail, 1) then Found(trail) else NotFound
  {
    assert trail[..1] == [Spot(0, root)];
    hide *;
    FullIsRest(trail);
    ResolveRest(root, long, trail, 0);
    FromRoot(root, long, here, Rest(trail, 0));
  }

  lemma FromRoot(root: Node, long: bool, here: seq<Spot>, p: string)
    ensures Resolve(root, long, here, "/" + p) == Resolve(root, long, [Spot(0, root)], p)
  {
    assert ("/" + p)[1..] == p;
  }

  /** A file is found under its name in its directory's path. */
  lemma ParseFile(root: Node, long: bool, trail: seq<Spot>, s: Spot, here: seq<Spot>)
    requires Trail(root, trail) && LegalTree(root) && Child(trail[|trail| - 1], s)
    ensures Resolve(root, long, here, FullPath(trail) + s.n.name) ==
      if Readable(long, trail + [s], 1) then Found(trail + [s]) else NotFound
  {
    assert trail[..1] == [Spot(0, root)];
    hide *;
    FullIsRest(trail);
    var p := Rest(trail, 0) + s.n.name;
    assert FullPath(trail) + s.n.name == "/" + p;
    FromRoot(root, long, here, p);
    ResolveRestThen(root, long, trail, 0, s);
  }

  lemma {:induction false} ResolveRestThen(root: Node, long: bool, trail: seq<Spot>, k: nat, s: Spot)
    requires Trail(root, trail) && LegalTree(root) && k < |trail| && Child(trail[|trail| - 1], s)
    ensures Resolve(root, long, trail[..k + 1], Rest(trail, k) + s.n.name) ==
      if Readable(long, trail + [s], k + 1) then Found(trail + [s]) else NotFound
    decreases |trail| - k
  {
    TrailPrefix(root, trail, k + 1);
    ReadableStep(long, trail + [s], k + 1);
    if k + 1 == |trail| {
      assert trail[..k + 1] == trail && "" + s.n.name == s.n.name;
      assert (trail + [s])[k + 1] == s && Readable(long, trail + [s], k + 2);
      ResolveLast(root, long, trail, s);
    } else {
      ResolveRestThen(root, long, trail, k + 1, s);
      assert Child(trail[k], trail[k + 1]);
      assert trail[..k + 2] == trail[..k + 1] + [trail[k + 1]];
      var a := trail[k + 1].n.name + "/";
      assert a + Rest(trail, k + 1) + s.n.name == a + (Rest(trail, k + 1) + s.n.name);
      ResolveName(root, long, trail[..k + 1], trail[k + 1], Rest(trail, k + 1) + s.n.name);
    }
  }

  /** A legal name at the end of a path is read as one component. */
  lemma ReadsLast(c: string)
    requires c != [] && '/' !in c
    ensures c[0] != '/' && Component(c) == c && !(|c| >= 3 && c[..3] == "../") && !(|c| >= 2 && c[..2] == "./")
  {
    assert c[..|c|] == c && c[0] in c;
    ComponentUnique(c, |c|);
    if |c| >= 2 { assert c[..2][1] == c[1] && c[1] in c; }
    if |c| >= 3 { assert c[..3][2] == c[2] && c[2] in c; }
  }

  lemma ReadableStep(long: bool, trail: seq<Spot>, k: nat)
    requires k < |trail|
    ensures Readable(long, trail, k) <==> (long || Short(trail[k].n.name)) && Readable(long, trail, k + 1)
  {
  }

  lemma ResolveLast(root: Node, long: bool, trail: seq<Spot>, s: Spot)
    requires Trail(root, trail) && LegalTree(root) && Child(trail[|trail| - 1], s)
    ensures Resolve(root, long, trail, s.n.name) == if long || Short(s.n.name) then Found(trail + [s]) else NotFound
  {
    var d := trail[|trail| - 1];
    LegalTrail(root, trail, |trail| - 1);
    LegalChild(d.n.kids, d.i + 1, s);
    ReadsLast(s.n.name);
    FindsNamed(d.n.kids, d.i + 1, s, false);
  }

  // ----- every directory entry lies on a trail

  lemma {:induction false} ChildHolding(t: seq<Entry>, i: nat, parent: nat, f: Forest, d: nat) returns (s: Spot)
    requires EncodesAll(t, i, parent, f) && i <= d < i + Sizes(f)
    ensures IsChild(f, i, s) && s.i <= d < s.i + Size(s.n) && Encodes(t, s.i, parent, s.n) && s.n < f
    decreases f
  {
    match f
    case Cons(h, r) =>
      if d < i + Size(h) { s := Spot(i, h); } else { s := ChildHolding(t, i + Size(h), parent, r, d); }
  }

  lemma {:induction false} Reach(t: seq<Entry>, root: Node, trail: seq<Spot>, d: nat) returns (r: seq<Spot>)
    requires Encodes(t, 0, 0, root) && Trail(root, trail) && d < |t| && t[d].isDir
    requires var s := trail[|trail| - 1]; s.i <= d < s.i + Size(s.n)
    ensures Trail(root, r) && r[|r| - 1].i == d
    decreases trail[|trail| - 1].n
  {
    var s := trail[|trail| - 1];
    if d == s.i {
      r := trail;
    } else {
      TrailEncoded(t, root, trail, |trail| - 1);
      var c := ChildHolding(t, s.i + 1, s.i, s.n.kids, d);
      TrailDown(root, trail, c);
      r := Reach(t, root, trail + [c], d);
    }
  }

  /** Every directory entry of a well-formed table is reached from the root. */
  lemma EveryDirHasTrail(t: seq<Entry>, root: Node, d: nat)
    requires Encodes(t, 0, 0, root) && root.Dir? && |t| == Size(root) && d < |t| && t[d].isDir
    ensures exists trail: seq<Spot> :: Trail(root, trail) && trail[|trail| - 1].i == d
  {
    var r := Reach(t, root, [Spot(0, root)], d);
  }
}
