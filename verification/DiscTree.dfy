/** The disc's directory tree, its preorder table, and what a path means in the tree. */
module DiscTree {

  datatype Node = File(name: string, position: int, length: int) | Dir(name: string, kids: Forest)
  datatype Forest = Nil | Cons(head: Node, tail: Forest)

  /** A table entry. The last two fields of a directory are its parent and the entry behind its subtree; those of a file
      are its disc position and its length. */
  datatype Entry = Entry(isDir: bool, name: string, parentOrPosition: int, nextOrLength: int)

  function Size(n: Node): (s: nat)
    ensures s >= 1
  {
    match n case File(_, _, _) => 1 case Dir(_, kids) => 1 + Sizes(kids)
  }

  function Sizes(f: Forest): nat {
    match f case Nil => 0 case Cons(h, t) => Size(h) + Sizes(t)
  }

  /** Entry `i` and those behind it encode `n`, a child of entry `parent`. */
  ghost predicate Encodes(t: seq<Entry>, i: nat, parent: nat, n: Node)
    decreases n
  {
    i + Size(n) <= |t| &&
    match n
    case File(name, pos, len) => t[i] == Entry(false, name, pos, len)
    case Dir(name, kids) => t[i] == Entry(true, name, parent, i + Size(n)) && EncodesAll(t, i + 1, i, kids)
  }

  ghost predicate EncodesAll(t: seq<Entry>, i: nat, parent: nat, f: Forest)
    decreases f
  {
    match f case Nil => true case Cons(h, r) => Encodes(t, i, parent, h) && EncodesAll(t, i + Size(h), parent, r)
  }

  // ----- names

  function Lower(c: char): char {
    if 'A' <= c <= 'Z' then c + 32 as char else c
  }

  function Fold(s: string): (r: string)
    ensures |r| == |s|
  {
    seq(|s|, i requires 0 <= i < |s| => Lower(s[i]))
  }

  /** The first component of a path. */
  function Component(p: string): (c: string)
    ensures |c| <= |p| && c == p[..|c|] && '/' !in c && (|c| < |p| ==> p[|c|] == '/')
  {
    if p == [] || p[0] == '/' then [] else [p[0]] + Component(p[1..])
  }

  lemma {:induction false} ComponentUnique(p: string, k: nat)
    requires k <= |p| && '/' !in p[..k] && (k < |p| ==> p[k] == '/')
    ensures Component(p) == p[..k]
  {
    if k > 0 {
      assert p[..k][0] == p[0] && p[..k] == [p[0]] + p[1..][..k - 1];
      ComponentUnique(p[1..], k - 1);
    }
  }

  /** What the character-wise comparison of a path with a stored name decides. */
  function SameName(p: string, n: string): bool {
    if n == [] then p == [] || p[0] == '/'
    else p != [] && Lower(p[0]) == Lower(n[0]) && SameName(p[1..], n[1..])
  }

  lemma {:induction false} SameNameIsFold(p: string, n: string)
    requires '/' !in n
    ensures SameName(p, n) <==> Fold(Component(p)) == Fold(n)
  {
    var c := Component(p);
    if n == [] {
      assert Fold(n) == [];
    } else if p == [] || p[0] == '/' {
      assert |Fold(c)| == 0 && Lower('/') == '/';
      assert n[0] in n;
      LowerSlash(n[0]);
    } else {
      assert c == [p[0]] + Component(p[1..]);
      SameNameIsFold(p[1..], n[1..]);
      FoldCons(p[0], Component(p[1..]));
      assert n == [n[0]] + n[1..];
      FoldCons(n[0], n[1..]);
      assert Fold(c)[1..] == Fold(Component(p[1..])) && Fold(n)[1..] == Fold(n[1..]);
    }
  }

  lemma LowerSlash(c: char)
    ensures Lower(c) == '/' ==> c == '/'
  {
  }

  lemma FoldCons(c: char, s: string)
    ensures Fold([c] + s) == [Lower(c)] + Fold(s)
  {
  }

  /** At most eight characters, and behind a single dot at most three more; no spaces. Without a dot any length will
      do. */
  predicate Short(c: string) {
    && ' ' !in c
    && (forall i :: 0 <= i < |c| && c[i] == '.' ==> i <= 8 && |c| - i - 1 <= 3)
    && (forall i, j :: 0 <= i < j < |c| && c[i] == '.' ==> c[j] != '.')
  }

  // ----- paths in the tree

  /** A node and the number of its entry. */
  datatype Spot = Spot(i: nat, n: Node)

  datatype Outcome = NotFound | Found(trail: seq<Spot>)

  predicate Matches(n: Node, c: string, wantDir: bool) {
    Fold(n.name) == Fold(c) && (wantDir ==> n.Dir?)
  }

  datatype Option = None | Some(s: Spot)

  /** The first child that a component names. */
  function FindChild(f: Forest, i: nat, c: string, wantDir: bool): Option {
    match f
    case Nil => None
    case Cons(h, t) => if Matches(h, c, wantDir) then Some(Spot(i, h)) else FindChild(t, i + Size(h), c, wantDir)
  }

  function Up(trail: seq<Spot>): seq<Spot> {
    if |trail| > 1 then trail[..|trail| - 1] else trail
  }

  /** A way from the root down, directory by directory. */
  ghost predicate Trail(root: Node, trail: seq<Spot>) {
    && trail != [] && trail[0] == Spot(0, root)
    && (forall k :: 0 <= k < |trail| ==> trail[k].n.Dir?)
    && (forall j, k :: 0 <= j && k == j + 1 < |trail| ==> Child(trail[j], trail[k]))
  }

  ghost predicate Child(a: Spot, b: Spot) {
    a.n.Dir? && IsChild(a.n.kids, a.i + 1, b)
  }

  /** `b` stands among the nodes of `f`, whose entries start at `i`. */
  predicate IsChild(f: Forest, i: nat, b: Spot) {
    match f case Nil => false case Cons(h, t) => b == Spot(i, h) || IsChild(t, i + Size(h), b)
  }

  /** What a path means from the directory at the end of `trail`: a slash leads to the root, `.` and `..` stay and go
      up, and any other component goes down to the child of that name. */
  function Resolve(root: Node, long: bool, trail: seq<Spot>, p: string): Outcome
    decreases |p|
  {
    if p == [] then Found(trail)
    else if p[0] == '/' then Resolve(root, long, [Spot(0, root)], p[1..])
    else if |p| >= 3 && p[..3] == "../" then Resolve(root, long, Up(trail), p[3..])
    else if p == ".." then Found(Up(trail))
    else if |p| >= 2 && p[..2] == "./" then Resolve(root, long, trail, p[2..])
    else if p == "." then Found(trail)
    else
      var c := Component(p);
      var wantDir := |c| < |p|;
      if (!long && !Short(c)) || trail == [] || !trail[|trail| - 1].n.Dir? then NotFound else
      var d := trail[|trail| - 1];
      match FindChild(d.n.kids, d.i + 1, c, wantDir)
      case None => NotFound
      case Some(s) => if wantDir then Resolve(root, long, trail + [s], p[|c| + 1..]) else Found(trail + [s])
  }

  // ----- the tree and its table

  lemma {:induction false} ChildEncoded(t: seq<Entry>, i: nat, parent: nat, f: Forest, b: Spot)
    requires EncodesAll(t, i, parent, f) && IsChild(f, i, b)
    ensures Encodes(t, b.i, parent, b.n) && i <= b.i && b.i + Size(b.n) <= i + Sizes(f)
    decreases f
  {
    match f case Cons(h, r) => if b != Spot(i, h) { ChildEncoded(t, i + Size(h), parent, r, b); }
  }

  lemma {:induction false} FoundIsChild(f: Forest, i: nat, c: string, wantDir: bool)
    requires FindChild(f, i, c, wantDir).Some?
    ensures IsChild(f, i, FindChild(f, i, c, wantDir).s) && Matches(FindChild(f, i, c, wantDir).s.n, c, wantDir)
    decreases f
  {
    match f case Cons(h, t) => if !Matches(h, c, wantDir) { FoundIsChild(t, i + Size(h), c, wantDir); }
  }

  /** Along a trail every entry is encoded, with the one before it as its parent. */
  lemma {:induction false} TrailEncoded(t: seq<Entry>, root: Node, trail: seq<Spot>, k: nat)
    requires Encodes(t, 0, 0, root) && Trail(root, trail) && k < |trail|
    ensures Encodes(t, trail[k].i, if k == 0 then 0 else trail[k - 1].i, trail[k].n)
    ensures t[trail[k].i].isDir && t[trail[k].i].parentOrPosition == (if k == 0 then 0 else trail[k - 1].i)
  {
    if k > 0 {
      TrailEncoded(t, root, trail, k - 1);
      assert Child(trail[k - 1], trail[k]);
      ChildEncoded(t, trail[k - 1].i + 1, trail[k - 1].i, trail[k - 1].n.kids, trail[k]);
    }
  }

  lemma TrailDown(root: Node, trail: seq<Spot>, s: Spot)
    requires Trail(root, trail) && s.n.Dir? && Child(trail[|trail| - 1], s)
    ensures Trail(root, trail + [s])
  {
  }

  lemma TrailUp(root: Node, trail: seq<Spot>)
    requires Trail(root, trail)
    ensures Trail(root, Up(trail))
  {
  }
}
