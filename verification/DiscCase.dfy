/** How paths may be written: letters in either case, names of up to eight and three characters, dot names, and paths
    joined to one another. */
module DiscCase {
  import opened DiscTree
  import opened DiscPaths

  // ----- letters in either case

  /** The same character, or one ASCII letter in its two cases. */
  predicate Alike(a: char, b: char) {
    || a == b
    || ('A' <= a <= 'Z' && b as int == a as int + 32)
    || ('A' <= b <= 'Z' && a as int == b as int + 32)
  }

  predicate Respelt(p: string, q: string) {
    |p| == |q| && forall i :: 0 <= i < |p| ==> Alike(p[i], q[i])
  }

  lemma AlikeIsLower(a: char, b: char)
    ensures Alike(a, b) <==> Lower(a) == Lower(b)
  {
  }

  lemma RespeltIsFold(p: string, q: string)
    ensures Respelt(p, q) <==> Fold(p) == Fold(q)
  {
    if Respelt(p, q) {
      forall i | 0 <= i < |p| ensures Fold(p)[i] == Fold(q)[i] { AlikeIsLower(p[i], q[i]); }
    }
    if Fold(p) == Fold(q) {
      forall i | 0 <= i < |p| ensures Alike(p[i], q[i]) {
        assert Fold(p)[i] == Fold(q)[i];
        AlikeIsLower(p[i], q[i]);
      }
    }
  }

  /** A component names a node just when it is a respelling of its name, and where a directory is wanted the node is
      one. */
  lemma MatchesIff(n: Node, c: string, wantDir: bool)
    ensures Matches(n, c, wantDir) <==> Respelt(c, n.name) && (wantDir ==> n.Dir?)
  {
    RespeltIsFold(c, n.name);
  }

  /** The walk's own comparison: the component at the front of `p` is a respelling of the name. */
  lemma SameNameIff(p: string, n: string)
    requires '/' !in n
    ensures SameName(p, n) <==> Respelt(Component(p), n)
  {
    SameNameIsFold(p, n);
    RespeltIsFold(Component(p), n);
  }

  lemma {:induction false} FindRespelt(f: Forest, i: nat, c: string, d: string, wantDir: bool)
    requires Fold(c) == Fold(d)
    ensures FindChild(f, i, c, wantDir) == FindChild(f, i, d, wantDir)
    decreases f
  {
    match f case Nil => case Cons(h, t) => FindRespelt(t, i + Size(h), c, d, wantDir);
  }

  lemma AlikeSigns(a: char, b: char, x: char)
    requires Alike(a, b) && x in {'/', '.', ' '}
    ensures a == x <==> b == x
  {
  }

  lemma Places(p: string, q: string, k: nat, x: char)
    requires Respelt(p, q) && x in {'/', '.', ' '} && k < |p|
    ensures p[k] == x <==> q[k] == x
  {
    AlikeSigns(p[k], q[k], x);
  }

  lemma RespeltCut(p: string, q: string, i: nat, j: nat)
    requires Respelt(p, q) && i <= j <= |p|
    ensures Respelt(p[i..j], q[i..j])
  {
    forall k | 0 <= k < j - i ensures Alike(p[i..j][k], q[i..j][k]) { assert Alike(p[i + k], q[i + k]); }
  }

  lemma ComponentRespelt(p: string, q: string)
    requires Respelt(p, q)
    ensures |Component(p)| == |Component(q)| && Respelt(Component(p), Component(q))
  {
    var k := |Component(p)|;
    RespeltCut(p, q, 0, k);
    forall i | 0 <= i < k ensures q[i] != '/' {
      assert p[i] == p[..k][i] && p[..k][i] in p[..k];
      Places(p, q, i, '/');
    }
    if k < |p| { Places(p, q, k, '/'); }
    ComponentUnique(q, k);
    assert p[0..k] == p[..k] && q[0..k] == q[..k];
  }

  lemma ShortRespelt(c: string, d: string)
    requires Respelt(c, d)
    ensures Short(c) <==> Short(d)
  {
    forall k | 0 <= k < |c| ensures (c[k] == '.' <==> d[k] == '.') && (c[k] == ' ' <==> d[k] == ' ') {
      Places(c, d, k, '.');
      Places(c, d, k, ' ');
    }
  }

  /** The dot names look the same in every spelling. */
  lemma DotsRespelt(p: string, q: string)
    requires Respelt(p, q)
    ensures p == ".." <==> q == ".."
    ensures p == "." <==> q == "."
    ensures (|p| >= 3 && p[..3] == "../") <==> (|q| >= 3 && q[..3] == "../")
    ensures (|p| >= 2 && p[..2] == "./") <==> (|q| >= 2 && q[..2] == "./")
  {
    if |p| >= 1 { Places(p, q, 0, '.'); }
    if |p| >= 2 { Places(p, q, 1, '.'); Places(p, q, 1, '/'); }
    if |p| >= 3 { Places(p, q, 2, '/'); }
    DotForms(p);
    DotForms(q);
  }

  lemma DotForms(p: string)
    ensures p == ".." <==> |p| == 2 && p[0] == '.' && p[1] == '.'
    ensures p == "." <==> |p| == 1 && p[0] == '.'
    ensures (|p| >= 3 && p[..3] == "../") <==> |p| >= 3 && p[0] == '.' && p[1] == '.' && p[2] == '/'
    ensures (|p| >= 2 && p[..2] == "./") <==> |p| >= 2 && p[0] == '.' && p[1] == '/'
  {
    if |p| >= 3 { assert p[..3] == [p[0], p[1], p[2]]; }
    if |p| >= 2 { assert p[..2] == [p[0], p[1]]; }
    if |p| == 2 { assert p == [p[0], p[1]]; }
    if |p| == 1 { assert p == [p[0]]; }
  }

  /** Two spellings of a path mean the same, from every directory, and whether long names are accepted or not. */
  lemma {:induction false} RespellResolves(root: Node, long: bool, trail: seq<Spot>, p: string, q: string)
    requires Respelt(p, q)
    ensures Resolve(root, long, trail, p) == Resolve(root, long, trail, q)
    decreases |p|
  {
    if p != [] {
      DotsRespelt(p, q);
      DotForms(p);
      Places(p, q, 0, '/');
      if p[0] == '/' {
        RespeltCut(p, q, 1, |p|);
        RespellResolves(root, long, [Spot(0, root)], p[1..], q[1..]);
      } else if |p| >= 3 && p[..3] == "../" {
        RespeltCut(p, q, 3, |p|);
        RespellResolves(root, long, Up(trail), p[3..], q[3..]);
      } else if p == ".." {
      } else if |p| >= 2 && p[..2] == "./" {
        RespeltCut(p, q, 2, |p|);
        RespellResolves(root, long, trail, p[2..], q[2..]);
      } else if p == "." {
      } else {
        RespellDown(root, long, trail, p, q);
      }
    }
  }

  /** A path that starts with neither a slash nor a dot component. */
  predicate Ordinary(p: string) {
    && p != [] && p[0] != '/'
    && !(p[0] == '.' && |p| > 2 && p[1] == '.' && p[2] == '/') && !(p[0] == '.' && |p| == 2 && p[1] == '.')
    && !(p[0] == '.' && |p| > 1 && p[1] == '/') && !(p[0] == '.' && |p| == 1)
  }

  lemma ResolveDown(root: Node, long: bool, trail: seq<Spot>, p: string)
    requires Ordinary(p)
    ensures var c := Component(p);
      Resolve(root, long, trail, p) ==
        if (!long && !Short(c)) || trail == [] || !trail[|trail| - 1].n.Dir? then NotFound else
        match FindChild(trail[|trail| - 1].n.kids, trail[|trail| - 1].i + 1, c, |c| < |p|)
        case None => NotFound
        case Some(s) => if |c| < |p| then Resolve(root, long, trail + [s], p[|c| + 1..]) else Found(trail + [s])
  {
    DotForms(p);
    hide Short, FindChild, Component;
  }

  lemma {:induction false} RespellDown(root: Node, long: bool, trail: seq<Spot>, p: string, q: string)
    requires Respelt(p, q) && Ordinary(p)
    ensures Resolve(root, long, trail, p) == Resolve(root, long, trail, q)
    decreases |p|, 0
  {
    DotsRespelt(p, q);
    DotForms(p);
    DotForms(q);
    Places(p, q, 0, '/');
    var c, e := Component(p), Component(q);
    ComponentRespelt(p, q);
    ShortRespelt(c, e);
    RespeltIsFold(c, e);
    hide Resolve, Component, Short, Fold, FindChild, Respelt;
    ResolveDown(root, long, trail, p);
    ResolveDown(root, long, trail, q);
    if !((!long && !Short(c)) || trail == [] || !trail[|trail| - 1].n.Dir?) {
      var d := trail[|trail| - 1];
      FindRespelt(d.n.kids, d.i + 1, c, e, |c| < |p|);
      var o := FindChild(d.n.kids, d.i + 1, c, |c| < |p|);
      if o.Some? && |c| < |p| {
        RespeltCut(p, q, |c| + 1, |p|);
        RespellResolves(root, long, trail + [o.s], p[|c| + 1..], q[|c| + 1..]);
      }
    }
  }

  /** The printed path of a directory may be respelt and still leads back to it, under the same condition. */
  lemma RespeltPrintParses(root: Node, long: bool, trail: seq<Spot>, here: seq<Spot>, q: string)
    requires Trail(root, trail) && LegalTree(root) && Respelt(q, FullPath(trail))
    ensures Resolve(root, long, here, q) == if Readable(long, trail, 1) then Found(trail) else NotFound
  {
    RespellResolves(root, long, here, q, FullPath(trail));
    hide *;
    PrintThenParse(root, long, trail, here);
  }

  lemma RespeltFileParses(root: Node, long: bool, trail: seq<Spot>, s: Spot, here: seq<Spot>, q: string)
    requires Trail(root, trail) && LegalTree(root) && Child(trail[|trail| - 1], s)
    requires Respelt(q, FullPath(trail) + s.n.name)
    ensures Resolve(root, long, here, q) ==
      if Readable(long, trail + [s], 1) then Found(trail + [s]) else NotFound
  {
    RespellResolves(root, long, here, q, FullPath(trail) + s.n.name);
    hide *;
    ParseFile(root, long, trail, s, here);
  }

  // ----- what one name finds

  /** The lookup finds the first child that the name and the wish for a directory fit, if any fits. */
  lemma {:induction false} FindsFirst(f: Forest, i: nat, c: string, wantDir: bool)
    ensures var o := FindChild(f, i, c, wantDir);
      && (o.None? ==> forall b :: IsChild(f, i, b) ==> !Matches(b.n, c, wantDir))
      && (o.Some? ==> IsChild(f, i, o.s) && Matches(o.s.n, c, wantDir) && i <= o.s.i)
      && (o.Some? ==> forall b :: IsChild(f, i, b) && b.i < o.s.i ==> !Matches(b.n, c, wantDir))
    decreases f
  {
    match f
    case Nil =>
    case Cons(h, t) =>
      if Matches(h, c, wantDir) { EntriesBehind(t, i); } else { FindsFirst(t, i + Size(h), c, wantDir); }
  }

  lemma {:induction false} EntriesBehind(f: Forest, i: nat)
    ensures forall k, b :: k > i && IsChild(f, k, b) ==> b.i > i
    decreases f
  {
    match f
    case Nil =>
    case Cons(h, t) => EntriesBehind(t, i);
  }

  /** `s` is the first node of directory `d` whose name is a respelling of `c`, among the directories only if one is
      wanted. */
  ghost predicate FirstNamed(d: Spot, s: Spot, c: string, wantDir: bool) {
    && Child(d, s) && Respelt(c, s.n.name) && (wantDir ==> s.n.Dir?)
    && forall b :: Child(d, b) && b.i < s.i && (wantDir ==> b.n.Dir?) ==> !Respelt(c, b.n.name)
  }

  ghost predicate NoneFits(d: Spot, c: string, wantDir: bool) {
    forall s :: !FirstNamed(d, s, c, wantDir)
  }

  lemma FindMeans(d: Spot, c: string, wantDir: bool)
    requires d.n.Dir?
    ensures var o := FindChild(d.n.kids, d.i + 1, c, wantDir);
      && (o.Some? ==> FirstNamed(d, o.s, c, wantDir))
      && (o.None? ==> NoneFits(d, c, wantDir))
  {
    FindsFirst(d.n.kids, d.i + 1, c, wantDir);
    forall b: Spot ensures Matches(b.n, c, wantDir) <==> Respelt(c, b.n.name) && (wantDir ==> b.n.Dir?) {
      MatchesIff(b.n, c, wantDir);
    }
    hide FindChild, Matches, Respelt;
  }

  lemma LegalIsNamed(c: string, r: string)
    requires LegalName(c)
    ensures Ordinary(c) && Component(c) == c && Ordinary(c + "/" + r) && Component(c + "/" + r) == c
    ensures (c + "/" + r)[|c| + 1..] == r
  {
    ReadsLast(c);
    ReadsName(c, r);
    DotForms(c);
    DotForms(c + "/" + r);
  }

  /** A legal name leads from a directory to the first node there whose name is a respelling of it, provided long names
      are accepted or it obeys the 8.3 rule; else nowhere. */
  lemma NameLeads(root: Node, long: bool, trail: seq<Spot>, c: string)
    requires Trail(root, trail) && LegalName(c)
    ensures match Resolve(root, long, trail, c)
      case Found(t) => (long || Short(c)) && t != [] && t[..|t| - 1] == trail
        && FirstNamed(trail[|trail| - 1], t[|t| - 1], c, false)
      case NotFound => long || Short(c) ==> NoneFits(trail[|trail| - 1], c, false)
  {
    var d := trail[|trail| - 1];
    LegalIsNamed(c, "");
    FindMeans(d, c, false);
    ResolveDown(root, long, trail, c);
    hide Resolve, FindChild, FirstNamed, Short, LegalName, Ordinary;
    var o := FindChild(d.n.kids, d.i + 1, c, false);
    if o.Some? { assert (trail + [o.s])[..|trail|] == trail; }
  }

  /** Before a slash a name leads to the first directory of that name only, and the rest of the path goes on there. */
  lemma NameThenRest(root: Node, long: bool, trail: seq<Spot>, c: string, r: string, s: Spot)
    requires Trail(root, trail) && LegalName(c)
    ensures (long || Short(c)) && FirstNamed(trail[|trail| - 1], s, c, true) ==>
      Resolve(root, long, trail, c + "/" + r) == Resolve(root, long, trail + [s], r)
    ensures !(long || Short(c)) || NoneFits(trail[|trail| - 1], c, true) ==>
      Resolve(root, long, trail, c + "/" + r) == NotFound
  {
    var d := trail[|trail| - 1];
    var p := c + "/" + r;
    hide Resolve, FindChild, FirstNamed, Component, Short, LegalName, Ordinary;
    LegalIsNamed(c, r);
    FindMeans(d, c, true);
    ResolveDown(root, long, trail, p);
    hide Trail;
    var o := FindChild(d.n.kids, d.i + 1, c, true);
    if o.Some? && FirstNamed(d, s, c, true) { FirstUnique(d, s, o.s, c, true); }
  }

  lemma FirstUnique(d: Spot, s: Spot, x: Spot, c: string, wantDir: bool)
    requires FirstNamed(d, s, c, wantDir) && FirstNamed(d, x, c, wantDir)
    ensures s == x
  {
    hide Respelt;
    assert s.i == x.i;
    hide FirstNamed;
    SameEntry(d.n.kids, d.i + 1, s, x);
  }

  lemma {:induction false} SameEntry(f: Forest, i: nat, s: Spot, x: Spot)
    requires IsChild(f, i, s) && IsChild(f, i, x) && s.i == x.i
    ensures s == x
    decreases f
  {
    match f
    case Cons(h, t) =>
      EntriesBehind(t, i);
      if s != Spot(i, h) && x != Spot(i, h) { SameEntry(t, i + Size(h), s, x); }
  }

  // ----- what is printed

  /** The pieces of a path between its slashes. */
  function Split(p: string): seq<string>
    decreases |p|
  {
    var c := Component(p);
    if |c| == |p| then [c] else [c] + Split(p[|c| + 1..])
  }

  function Names(trail: seq<Spot>, k: nat): seq<string>
    decreases |trail| - k
  {
    if k >= |trail| then [""] else [trail[k].n.name] + Names(trail, k + 1)
  }

  lemma {:induction false} RestNames(root: Node, trail: seq<Spot>, k: nat)
    requires Trail(root, trail) && LegalTree(root) && k < |trail|
    ensures Split(Rest(trail, k)) == Names(trail, k + 1)
    decreases |trail| - k
  {
    if k + 1 < |trail| {
      RestNames(root, trail, k + 1);
      LegalTrail(root, trail, k + 1);
      ReadsName(trail[k + 1].n.name, Rest(trail, k + 1));
      assert trail[k + 1].n.name + "/" + Rest(trail, k + 1) == Rest(trail, k);
    }
  }

  /** The printed path of a directory is the stored names on the way from the root, as they are spelt, each behind one
      slash, and a slash at the end. */
  lemma PrintedNames(root: Node, trail: seq<Spot>)
    requires Trail(root, trail) && LegalTree(root)
    ensures Split(FullPath(trail)) == [""] + Names(trail, 1)
  {
    var r := Rest(trail, 0);
    assert trail != [];
    hide *;
    FullIsRest(trail);
    RestNames(root, trail, 0);
    FirstSlash(r);
  }

  lemma FirstSlash(r: string)
    ensures Split("/" + r) == [""] + Split(r)
  {
    ComponentUnique("/" + r, 0);
    assert ("/" + r)[1..] == r;
  }

  // ----- dot names, and paths joined

  /** Where each of the special forms leads: nothing and a dot stay, two dots go to the directory above, or stay in the
      root, and a slash goes to the root. */
  lemma SpecialForms(root: Node, long: bool, trail: seq<Spot>, r: string)
    ensures var above := if |trail| > 1 then trail[..|trail| - 1] else trail;
      && Resolve(root, long, trail, "") == Resolve(root, long, trail, ".") == Found(trail)
      && Resolve(root, long, trail, "..") == Found(above)
      && Resolve(root, long, trail, "./" + r) == Resolve(root, long, trail, r)
      && Resolve(root, long, trail, "../" + r) == Resolve(root, long, above, r)
      && Resolve(root, long, trail, "/" + r) == Resolve(root, long, [Spot(0, root)], r)
  {
    DotForms(".");
    DotForms("..");
    var a, b := "./" + r, "../" + r;
    assert a[..2] == "./" && a[2..] == r && b[..3] == "../" && b[3..] == r && ("/" + r)[1..] == r;
    DotForms(a);
    DotForms(b);
    hide Component, Short, FindChild;
  }

  /** A path that ends in a slash, followed by another: the second starts where the first leads. */
  lemma {:induction false} Joined(root: Node, long: bool, trail: seq<Spot>, p: string, q: string)
    requires p == [] || p[|p| - 1] == '/'
    ensures Resolve(root, long, trail, p + q) ==
      match Resolve(root, long, trail, p) case NotFound => NotFound case Found(t) => Resolve(root, long, t, q)
    decreases |p|
  {
    var pq := p + q;
    if p == [] {
      assert pq == q;
    } else {
      JoinedForms(p, q);
      DotForms(p);
      if p[0] == '/' {
        assert pq[1..] == p[1..] + q;
        Joined(root, long, [Spot(0, root)], p[1..], q);
      } else if |p| >= 3 && p[..3] == "../" {
        assert pq[3..] == p[3..] + q;
        Joined(root, long, Up(trail), p[3..], q);
      } else if |p| >= 2 && p[..2] == "./" {
        assert pq[2..] == p[2..] + q;
        Joined(root, long, trail, p[2..], q);
      } else {
        JoinedDown(root, long, trail, p, q);
      }
    }
  }

  lemma JoinedForms(p: string, q: string)
    requires p != [] && p[|p| - 1] == '/'
    ensures p != "." && p != ".." && p + q != "." && p + q != ".." && (p + q)[0] == p[0]
    ensures (|p| >= 3 && p[..3] == "../") <==> (|p + q| >= 3 && (p + q)[..3] == "../" && p[0] != '/')
    ensures (|p| >= 2 && p[..2] == "./") <==> (|p + q| >= 2 && (p + q)[..2] == "./" && p[0] != '/')
  {
    DotForms(p);
    DotForms(p + q);
    assert forall i :: 0 <= i < |p| ==> (p + q)[i] == p[i];
  }

  lemma ComponentJoined(p: string, q: string)
    requires p != [] && p[|p| - 1] == '/'
    ensures var c := Component(p); |c| < |p| && Component(p + q) == c && (p + q)[|c| + 1..] == p[|c| + 1..] + q
  {
    var c := Component(p);
    assert '/' in p && (|c| == |p| ==> c == p);
    assert (p + q)[..|c|] == p[..|c|];
    ComponentUnique(p + q, |c|);
  }

  lemma {:induction false} JoinedDown(root: Node, long: bool, trail: seq<Spot>, p: string, q: string)
    requires p != [] && p[|p| - 1] == '/' && Ordinary(p)
    ensures Resolve(root, long, trail, p + q) ==
      match Resolve(root, long, trail, p) case NotFound => NotFound case Found(t) => Resolve(root, long, t, q)
    decreases |p|, 0
  {
    hide *;
    NamedJoined(p, q);
    var c := Component(p);
    var pq := p + q;
    ComponentJoined(p, q);
    ResolveDown(root, long, trail, p);
    ResolveDown(root, long, trail, pq);
    var r, rq := p[|c| + 1..], pq[|c| + 1..];
    assert |c| < |p| <= |pq| && |r| < |p|;
    if !((!long && !Short(c)) || trail == [] || !trail[|trail| - 1].n.Dir?) {
      var d := trail[|trail| - 1];
      var o := FindChild(d.n.kids, d.i + 1, c, true);
      if o.Some? {
        LastStays(p, |c| + 1);
        Joined(root, long, trail + [o.s], r, q);
        assert Resolve(root, long, trail, pq) == Resolve(root, long, trail + [o.s], rq);
      }
    }
  }

  lemma NamedJoined(p: string, q: string)
    requires p != [] && p[|p| - 1] == '/' && Ordinary(p)
    ensures Ordinary(p + q)
  {
    JoinedForms(p, q);
    DotForms(p);
    DotForms(p + q);
  }

  lemma LastStays(p: string, k: nat)
    requires p != [] && p[|p| - 1] == '/' && k <= |p|
    ensures var r := p[k..]; r == [] || r[|r| - 1] == '/'
  {
  }

  // ----- the 8.3 rule

  /** Without a dot a name may have any length; with one dot, at most eight characters before it and three after it;
      more than one dot, or a space, is never accepted. */
  lemma ShortForms(a: string, b: string, x: string)
    requires '.' !in a && '.' !in b
    ensures Short(a) <==> ' ' !in a
    ensures Short(a + "." + b) <==> ' ' !in a && ' ' !in b && |a| <= 8 && |b| <= 3
    ensures !Short(a + "." + b + "." + x)
  {
    var c := a + "." + b;
    assert forall i :: 0 <= i < |a| ==> c[i] == a[i];
    assert forall i :: 0 <= i < |b| ==> c[|a| + 1 + i] == b[i];
    assert c[|a|] == '.' && forall i :: 0 <= i < |c| && c[i] == '.' ==> i == |a|;
    assert ' ' in c <==> ' ' in a || ' ' in b;
    var d := c + "." + x;
    assert d[|a|] == '.' && d[|c|] == '.';
  }
}
