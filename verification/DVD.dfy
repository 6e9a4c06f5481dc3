/** The disc file system in its own form: the path walk over the table, the path printer, and the current directory. */
module DVD {
  import opened DiscTree
  import opened DiscCase
  import opened DiscPaths

  class Disc {
    const table: seq<Entry>
    /** Accept long file names. */
    const longNames: bool
    var currentDirectory: nat
    ghost const root: Node
    ghost var here: seq<Spot>

    ghost predicate Valid()
      reads this
    {
      && Encodes(table, 0, 0, root) && root.Dir? && |table| == Size(root)
      && Trail(root, here) && here[|here| - 1].i == currentDirectory
    }

    constructor (t: seq<Entry>, long: bool, ghost tree: Node)
      requires Encodes(t, 0, 0, tree) && tree.Dir? && |t| == Size(tree)
      ensures Valid() && table == t && longNames == long && root == tree && currentDirectory == 0
    {
      table, longNames, currentDirectory, root := t, long, 0, tree;
      here := [Spot(0, tree)];
    }

    /** Compares the path from index `k` with a stored name. */
    method IsSameMem(path: string, k: nat, name: string) returns (same: bool)
      requires k <= |path|
      ensures same <==> SameName(path[k..], name)
    {
      var i, j := k, 0;
      while j < |name|
        invariant k <= i <= |path| && 0 <= j <= |name|
        invariant SameName(path[k..], name) <==> SameName(path[i..], name[j..])
      {
        if i == |path| || Lower(path[i]) != Lower(name[j]) { return false; }
        assert path[i..][1..] == path[i + 1..] && name[j..][1..] == name[j + 1..];
        i, j := i + 1, j + 1;
      }
      same := i == |path| || path[i] == '/';
    }

    /** The end of the component at index `k`, and whether it breaks the 8.3 rule; after a second dot, or a late one,
        the scan stops where it is. */
    method ScanName(path: string, k: nat) returns (end: nat, illegal: bool)
      requires k <= |path|
      ensures !longNames ==> (illegal <==> !Short(Component(path[k..])))
      ensures longNames ==> !illegal
      ensures !illegal ==> end == k + |Component(path[k..])|
    {
      ghost var c := Component(path[k..]);
      end, illegal := k, false;
      var extension, extensionStart := false, 0;
      while end < |path| && path[end] != '/'
        invariant k <= end <= k + |c|
        invariant longNames ==> !illegal
        invariant !longNames ==> Scanned(c, end - k, illegal, extension, extensionStart - k)
      {
        assert path[end] == c[end - k];
        if !longNames {
          if path[end] == '.' {
            if end - k > 8 || extension {
              illegal := true;
              return;
            }
            extension := true;
            extensionStart := end + 1;
          } else if path[end] == ' ' {
            illegal := true;
          }
        }
        end := end + 1;
      }
      assert end == k + |c|;
      if !longNames && extension && end - extensionStart > 3 { illegal := true; }
    }

    /** The child of directory `d` that the component at index `k` names; skips the subtrees in between. */
    method FindEntry(d: nat, path: string, k: nat, isDir: bool, ghost s: Spot) returns (found: bool, i: nat)
      requires k <= |path| && s.i == d && s.n.Dir? && d + Size(s.n) <= |table| && EncodesAll(table, d + 1, d, s.n.kids)
      requires table[d].nextOrLength == d + Size(s.n) && PlainForest(s.n.kids)
      ensures var o := FindChild(s.n.kids, d + 1, Component(path[k..]), isDir);
        if found then o.Some? && o.s.i == i else o.None?
    {
      ghost var c, f := Component(path[k..]), s.n.kids;
      i := d + 1;
      while i < table[d].nextOrLength
        invariant EncodesAll(table, i, d, f) && PlainForest(f) && i + Sizes(f) == d + Size(s.n)
        invariant FindChild(s.n.kids, d + 1, c, isDir) == FindChild(f, i, c, isDir)
        decreases f
      {
        assert f.Cons?;
        SameNameIsFold(path[k..], f.head.name);
        var skip := !table[i].isDir && isDir;
        if !skip {
          var same := IsSameMem(path, k, table[i].name);
          if same { return true, i; }
        }
        i := if table[i].isDir then table[i].nextOrLength else i + 1;
        f := f.tail;
      }
      found := false;
    }

    method ConvertPathToEntrynum(path: string) returns (entry: int)
      requires Valid() && Plain(root)
      ensures Answers(Resolve(root, longNames, here, path), entry)
    {
      var k, dir := 0, currentDirectory;
      ghost var trail := here;
      assert path[0..] == path;
      hide Resolve, Encodes, Plain, Trail, Up, Ordinary, Answers;
      TrailGoes(root, trail);
      FoundAnswers();
      while true
        invariant 0 <= k <= |path| && dir >= 0 && Ends(root, trail, dir)
        invariant Resolve(root, longNames, trail, path[k..]) == Resolve(root, longNames, here, path)
        decreases |path| - k
      {
        UpEncoded(table, root, trail);
        DotsAt(root, longNames, trail, path, k);
        TrailGoes(root, Up(trail));
        TrailGoes(root, [Spot(0, root)]);
        if k == |path| { return dir; }
        if path[k] == '/' {
          dir, k, trail := 0, k + 1, [Spot(0, root)];
          continue;
        }
        if path[k] == '.' {
          if k + 1 < |path| && path[k + 1] == '.' {
            if k + 2 < |path| && path[k + 2] == '/' {
              dir, k, trail := table[dir].parentOrPosition, k + 3, Up(trail);
              continue;
            } else if k + 2 == |path| {
              return table[dir].parentOrPosition;
            }
          } else if k + 1 < |path| && path[k + 1] == '/' {
            k := k + 2;
            continue;
          } else if k + 1 == |path| {
            return dir;
          }
        }
        var done: bool;
        done, entry, dir, k, trail := Descend(path, k, dir, trail);
        if done { return; }
        TrailGoes(root, trail);
      }
    }

    /** One ordinary component: down to the child it names. */
    method Descend(path: string, k0: nat, dir0: nat, ghost trail0: seq<Spot>)
      returns (done: bool, entry: int, dir: nat, k: nat, ghost trail: seq<Spot>)
      requires Valid() && Plain(root) && k0 < |path| && Ordinary(path[k0..])
      requires Ends(root, trail0, dir0)
      ensures done ==> Answers(Resolve(root, longNames, trail0, path[k0..]), entry)
      ensures !done ==> k0 < k <= |path| && Ends(root, trail, dir)
      ensures !done ==> Resolve(root, longNames, trail, path[k..]) == Resolve(root, longNames, trail0, path[k0..])
    {
      hide *;
      var found, end, i := LookUp(path, k0, dir0, trail0);
      ghost var o := DownAt(root, longNames, trail0, path, k0, dir0, found, end, i);
      done, entry, dir, k, trail := !found || end == |path|, if found then i else -1, i, end + 1, trail0 + [o];
    }

    /** The end of the component at index `k`, and the child of directory `d` that it names, if it may and does. */
    method LookUp(path: string, k: nat, d: nat, ghost trail: seq<Spot>) returns (found: bool, end: nat, i: nat)
      requires Valid() && Plain(root) && k <= |path| && Ends(root, trail, d)
      ensures Looked(longNames, trail, path, k, found, end, i)
    {
      LastEncoded(table, root, trail);
      ghost var s := trail[|trail| - 1];
      hide Encodes, EncodesAll, Plain, PlainForest, Trail, Component, FindChild, Short, Size;
      i := 0;
      var illegal: bool;
      end, illegal := ScanName(path, k);
      found := false;
      if !illegal { found, i := FindEntry(d, path, k, end != |path|, s); }
    }

    /** Copies at most `maxlen` characters of a name to `path`, from index `loc`. */
    method StrncpyMem(path: array<char>, loc: nat, name: string, maxlen: nat) returns (n: nat)
      requires loc + maxlen <= path.Length
      modifies path
      ensures n == Least(|name|, maxlen) && path[..loc + n] == old(path[..loc]) + name[..n]
    {
      n := 0;
      while n < maxlen && n < |name|
        invariant n <= Least(|name|, maxlen) && path[..loc + n] == old(path[..loc]) + name[..n]
      {
        path[loc + n] := name[n];
        n := n + 1;
        assert path[..loc + n] == path[..loc + n - 1] + [name[n - 1]];
      }
    }

    /** Writes the path of a directory, up to `maxlen` characters of it. */
    method EntryToPathRec(entry: nat, path: array<char>, maxlen: nat, ghost trail: seq<Spot>) returns (loc: nat)
      requires Valid() && maxlen <= path.Length && Trail(root, trail) && trail[|trail| - 1].i == entry
      modifies path
      ensures loc == Least(|PathOf(trail)|, maxlen) && path[..loc] == PathOf(trail)[..loc]
      decreases |trail|
    {
      RootFirst(table, root, trail);
      TrailEncoded(table, root, trail, |trail| - 1);
      if entry == 0 { return 0; }
      ghost var n, front := |trail| - 1, trail[..|trail| - 1];
      TrailPrefix(root, trail, n);
      ghost var whole := PathOf(trail);
      assert whole == PathOf(front) + "/" + trail[n].n.name;
      hide Trail, PathOf, Encodes;
      loc := EntryToPathRec(table[entry].parentOrPosition, path, maxlen, front);
      if loc == maxlen {
        assert whole[..loc] == PathOf(front)[..loc];
        return;
      }
      path[loc] := '/';
      loc := loc + 1;
      assert path[..loc] == PathOf(front) + "/";
      var m := StrncpyMem(path, loc, table[entry].name, maxlen - loc);
      assert whole[..loc + m] == PathOf(front) + "/" + table[entry].name[..m];
      loc := loc + m;
    }

    /** Prints the path of a directory entry, a slash and a terminator; false when it does not fit, and then as much of
        it as fits is there. */
    method ConvertEntrynumToPath(entry: int, path: array<char>, maxlen: nat, ghost trail: seq<Spot>) returns (ok: bool)
      requires Valid() && maxlen <= path.Length
      requires 0 <= entry < |table| ==> Trail(root, trail) && trail[|trail| - 1].i == entry
      modifies path
      ensures ok <==> 0 <= entry < |table| && |FullPath(trail)| < maxlen
      ensures ok ==> path[..|FullPath(trail)| + 1] == FullPath(trail) + ['\0']
      ensures !ok && 0 <= entry < |table| && maxlen > 0 ==>
        |FullPath(trail)| >= maxlen - 1 && path[..maxlen] == FullPath(trail)[..maxlen - 1] + ['\0']
    {
      if maxlen == 0 { return false; }
      if entry < 0 || entry >= |table| { return false; }
      TrailEncoded(table, root, trail, |trail| - 1);
      assert table[entry].isDir;
      hide Trail, PathOf, Encodes;
      var loc := EntryToPathRec(entry, path, maxlen, trail);
      if loc == maxlen {
        path[maxlen - 1] := '\0';
        return false;
      }
      if table[entry].isDir {
        if loc == maxlen - 1 {
          path[loc] := '\0';
          return false;
        }
        path[loc] := '/';
        loc := loc + 1;
      }
      path[loc] := '\0';
      ok := true;
    }

    method GetCurrentDir(path: array<char>, maxlen: nat) returns (ok: bool)
      requires Valid() && maxlen <= path.Length
      modifies path
      ensures ok <==> |FullPath(here)| < maxlen
      ensures ok ==> path[..|FullPath(here)| + 1] == FullPath(here) + ['\0']
    {
      TrailEncoded(table, root, here, |here| - 1);
      ok := ConvertEntrynumToPath(currentDirectory, path, maxlen, here);
    }

    /** Moves to the directory a path leads to; a path that leads nowhere, or to a file, changes nothing. */
    method ChangeDir(dirName: string) returns (ok: bool)
      requires Valid() && Plain(root)
      modifies this
      ensures Valid()
      ensures var o := Resolve(root, longNames, old(here), dirName);
        && (ok <==> o.Found? && o.trail != [] && o.trail[|o.trail| - 1].n.Dir?)
        && here == if ok then o.trail else old(here)
    {
      hide Resolve, Trail, Encodes, Plain;
      var entry := ConvertPathToEntrynum(dirName);
      ResolveLands(root, longNames, here, dirName);
      if entry < 0 { return false; }
      ghost var t := Resolve(root, longNames, here, dirName).trail;
      LandsEncoded(table, root, t);
      if !table[entry].isDir { return false; }
      currentDirectory := entry;
      here := t;
      ok := true;
    }
  }

  function Least(a: nat, b: nat): nat { if a < b then a else b }

  /** Only the root has number 0. */
  lemma RootFirst(t: seq<Entry>, root: Node, trail: seq<Spot>)
    requires Encodes(t, 0, 0, root) && Trail(root, trail)
    ensures trail[|trail| - 1].i == 0 <==> |trail| == 1
  {
    var n := |trail| - 1;
    if n > 0 {
      TrailEncoded(t, root, trail, n - 1);
      assert Child(trail[n - 1], trail[n]);
      ChildEncoded(t, trail[n - 1].i + 1, trail[n - 1].i, trail[n - 1].n.kids, trail[n]);
    }
  }

  /** Where a path ends: at a directory on a trail, or at a file in one. */
  ghost predicate Lands(root: Node, t: seq<Spot>) {
    t != [] &&
    if t[|t| - 1].n.Dir? then Trail(root, t)
    else |t| > 1 && Trail(root, t[..|t| - 1]) && Child(t[|t| - 2], t[|t| - 1])
  }

  lemma {:induction false} ResolveLands(root: Node, long: bool, trail: seq<Spot>, p: string)
    requires Trail(root, trail)
    ensures Resolve(root, long, trail, p).Found? ==> Lands(root, Resolve(root, long, trail, p).trail)
    decreases |p|
  {
    hide Resolve, Trail, FindChild, Component, Short, Lands, Up;
    ResolveDots(root, long, trail, p);
    TrailLands(root, trail);
    TrailLands(root, Up(trail));
    if p == [] {
    } else if p[0] == '/' {
      ResolveLands(root, long, [Spot(0, root)], p[1..]);
    } else if |p| > 2 && p[0] == '.' && p[1] == '.' && p[2] == '/' {
      ResolveLands(root, long, Up(trail), p[3..]);
    } else if |p| > 1 && p[0] == '.' && p[1] == '/' {
      ResolveLands(root, long, trail, p[2..]);
    } else if Ordinary(p) {
      DownTrail(root, long, trail, p);
      var c, d := Component(p), trail[|trail| - 1];
      var o := FindChild(d.n.kids, d.i + 1, c, |c| < |p|);
      hide *;
      if (long || Short(c)) && o.Some? {
        if |c| < |p| {
          ResolveLands(root, long, trail + [o.s], p[|c| + 1..]);
        } else {
          LandsOn(root, trail, c);
        }
      }
    }
  }

  lemma TrailLands(root: Node, trail: seq<Spot>)
    requires Trail(root, trail)
    ensures Lands(root, trail) && trail[|trail| - 1].n.Dir?
  {
  }

  lemma LandsOn(root: Node, trail: seq<Spot>, c: string)
    requires Trail(root, trail)
    ensures var d := trail[|trail| - 1];
      var o := FindChild(d.n.kids, d.i + 1, c, false);
      o.Some? ==> Lands(root, trail + [o.s])
  {
    var d := trail[|trail| - 1];
    var o := FindChild(d.n.kids, d.i + 1, c, false);
    if o.Some? {
      FoundIsChild(d.n.kids, d.i + 1, c, false);
      assert (trail + [o.s])[..|trail|] == trail;
      if o.s.n.Dir? { TrailDown(root, trail, o.s); }
    }
  }

  lemma LandsEncoded(t: seq<Entry>, root: Node, trail: seq<Spot>)
    requires Encodes(t, 0, 0, root) && Lands(root, trail)
    ensures var s := trail[|trail| - 1]; s.i < |t| && (t[s.i].isDir <==> s.n.Dir?)
  {
    var n := |trail| - 1;
    if trail[n].n.Dir? {
      TrailEncoded(t, root, trail, n);
    } else {
      TrailEncoded(t, root, trail[..n], n - 1);
      ChildEncoded(t, trail[n - 1].i + 1, trail[n - 1].i, trail[n - 1].n.kids, trail[n]);
    }
  }

  /** Changing to the printed current directory stays there, exactly when every name on the way can be read back. */
  lemma ChangeToPrinted(root: Node, long: bool, here: seq<Spot>)
    requires Trail(root, here) && LegalTree(root)
    ensures Resolve(root, long, here, FullPath(here)) == Found(here) <==> Readable(long, here, 1)
  {
    PrintThenParse(root, long, here, here);
  }

  /** The number that stands for an outcome: the entry at the end of the trail, or -1. */
  predicate Answers(o: Outcome, entry: int) {
    match o case NotFound => entry == -1 case Found(t) => t != [] && entry == t[|t| - 1].i
  }

  /** The trail `t` ends at entry `i`. */
  ghost predicate Ends(root: Node, t: seq<Spot>, i: nat) {
    Trail(root, t) && t != [] && t[|t| - 1].i == i
  }

  lemma TrailGoes(root: Node, trail: seq<Spot>)
    ensures Trail(root, trail) ==> trail != []
  {
  }

  lemma ResolveDots(root: Node, long: bool, trail: seq<Spot>, p: string)
    requires Trail(root, trail)
    ensures p == [] ==> Resolve(root, long, trail, p) == Found(trail)
    ensures p != [] && p[0] == '/' ==>
      Resolve(root, long, trail, p) == Resolve(root, long, [Spot(0, root)], p[1..]) && Trail(root, [Spot(0, root)])
    ensures |p| > 2 && p[0] == '.' && p[1] == '.' && p[2] == '/' ==>
      Resolve(root, long, trail, p) == Resolve(root, long, Up(trail), p[3..])
    ensures |p| == 2 && p[0] == '.' && p[1] == '.' ==> Resolve(root, long, trail, p) == Found(Up(trail))
    ensures |p| > 1 && p[0] == '.' && p[1] == '/' ==>
      Resolve(root, long, trail, p) == Resolve(root, long, trail, p[2..])
    ensures |p| == 1 && p[0] == '.' ==> Resolve(root, long, trail, p) == Found(trail)
    ensures Trail(root, Up(trail)) && trail != []
  {
    TrailUp(root, trail);
    DotForms(p);
  }

  lemma FoundAnswers()
    ensures forall t: seq<Spot> :: t != [] ==> Answers(Found(t), t[|t| - 1].i)
  {
  }

  predicate EndsAt(path: string, k: nat) {
    k >= |path| || path[k] == '/'
  }

  predicate Special(path: string, k: nat) {
    EndsAt(path, k) || (path[k] == '.' && (EndsAt(path, k + 1) || (path[k + 1] == '.' && EndsAt(path, k + 2))))
  }

  /** The forms of `ResolveDots` at index `k` of a path. */
  lemma DotsAt(root: Node, long: bool, trail: seq<Spot>, path: string, k: nat)
    requires Trail(root, trail) && k <= |path|
    ensures k == |path| ==> Resolve(root, long, trail, path[k..]) == Found(trail)
    ensures k < |path| && path[k] == '/' ==>
      && Resolve(root, long, trail, path[k..]) == Resolve(root, long, [Spot(0, root)], path[k + 1..])
      && Trail(root, [Spot(0, root)])
    ensures k + 1 < |path| && path[k] == '.' && path[k + 1] == '.' ==>
      && (k + 2 == |path| ==> Resolve(root, long, trail, path[k..]) == Found(Up(trail)))
      && (k + 2 < |path| && path[k + 2] == '/' ==>
           Resolve(root, long, trail, path[k..]) == Resolve(root, long, Up(trail), path[k + 3..]))
    ensures k < |path| && path[k] == '.' ==>
      && (k + 1 == |path| ==> Resolve(root, long, trail, path[k..]) == Found(trail))
      && (k + 1 < |path| && path[k + 1] == '/' ==>
           Resolve(root, long, trail, path[k..]) == Resolve(root, long, trail, path[k + 2..]))
    ensures !Special(path, k) ==> Ordinary(path[k..])
    ensures Trail(root, Up(trail)) && trail != []
  {
    var p := path[k..];
    ResolveDots(root, long, trail, p);
    if |p| > 0 { assert path[k + 1..] == p[1..]; }
    if |p| > 1 { assert path[k + 2..] == p[2..]; }
    if |p| > 2 { assert path[k + 3..] == p[3..]; }
    hide Resolve, Trail, Up;
  }

  /** The parent field of a directory's entry leads up the trail. */
  lemma UpEncoded(t: seq<Entry>, root: Node, trail: seq<Spot>)
    requires Encodes(t, 0, 0, root) && Trail(root, trail)
    ensures var d := trail[|trail| - 1].i;
      d < |t| && Up(trail) != [] && t[d].parentOrPosition == Up(trail)[|Up(trail)| - 1].i
  {
    TrailEncoded(t, root, trail, |trail| - 1);
  }

  /** Where one component leads, by what the search reported: `n` is its length, `i` the entry found. */
  lemma DownOutcome(root: Node, long: bool, trail: seq<Spot>, p: string, found: bool, n: nat, i: nat) returns (o: Spot)
    requires Trail(root, trail) && Ordinary(p)
    requires var c, d := Component(p), trail[|trail| - 1];
      var f := FindChild(d.n.kids, d.i + 1, c, |c| < |p|);
      (found <==> (long || Short(c)) && f.Some?) && (found ==> n == |c| && f.s.i == i)
    ensures !found || n == |p| ==> Answers(Resolve(root, long, trail, p), if found then i else -1)
    ensures found ==> n <= |p| && o.i == i
    ensures found && n < |p| ==>
      Trail(root, trail + [o]) && Resolve(root, long, trail + [o], p[n + 1..]) == Resolve(root, long, trail, p)
  {
    var c, d := Component(p), trail[|trail| - 1];
    var f := FindChild(d.n.kids, d.i + 1, c, |c| < |p|);
    DownTrail(root, long, trail, p);
    hide Resolve, Trail, FindChild, Component, Short, Ordinary;
    o := if f.Some? then f.s else d;
  }

  /** What the search for the component at index `k` of a path reports. */
  ghost predicate Looked(long: bool, trail: seq<Spot>, path: string, k: nat, found: bool, end: nat, i: nat) {
    && trail != [] && trail[|trail| - 1].n.Dir? && k <= |path|
    && var c, d := Component(path[k..]), trail[|trail| - 1];
    var f := FindChild(d.n.kids, d.i + 1, c, |c| < |path| - k);
    (found <==> (long || Short(c)) && f.Some?) && (found ==> end == k + |c| && f.s.i == i)
  }

  /** The same, where the component stands at index `k` of a path and ends at `end`. */
  lemma DownAt(root: Node, long: bool, trail: seq<Spot>, path: string, k: nat, d: nat, found: bool, end: nat, i: nat)
    returns (o: Spot)
    requires Ends(root, trail, d) && k < |path| && Ordinary(path[k..]) && Looked(long, trail, path, k, found, end, i)
    ensures !found || end == |path| ==> Answers(Resolve(root, long, trail, path[k..]), if found then i else -1)
    ensures found && end != |path| ==>
      && k <= end < |path| && Ends(root, trail + [o], i)
      && Resolve(root, long, trail + [o], path[end + 1..]) == Resolve(root, long, trail, path[k..])
  {
    var n := if found then end - k else 0;
    hide Resolve, Trail, FindChild, Component, Short, Ordinary, Answers;
    Behind(path, k, n + 1);
    o := DownOutcome(root, long, trail, path[k..], found, n, i);
  }

  lemma Behind(path: string, k: nat, n: nat)
    requires k <= |path|
    ensures |path[k..]| == |path| - k
    ensures k + n <= |path| ==> path[k..][n..] == path[k + n..]
  {
  }

  /** What the search of the directory at the end of a trail may rely on. */
  lemma LastEncoded(t: seq<Entry>, root: Node, trail: seq<Spot>)
    requires Encodes(t, 0, 0, root) && Trail(root, trail) && Plain(root)
    ensures var s := trail[|trail| - 1];
      && s.n.Dir? && s.i + Size(s.n) <= |t| && EncodesAll(t, s.i + 1, s.i, s.n.kids)
      && t[s.i].nextOrLength == s.i + Size(s.n) && PlainForest(s.n.kids)
  {
    TrailEncoded(t, root, trail, |trail| - 1);
    PlainTrail(root, trail, |trail| - 1);
  }

  lemma DownTrail(root: Node, long: bool, trail: seq<Spot>, p: string)
    requires Trail(root, trail) && Ordinary(p)
    ensures var c, d := Component(p), trail[|trail| - 1];
      var o := FindChild(d.n.kids, d.i + 1, c, |c| < |p|);
      && (!long && !Short(c) ==> Resolve(root, long, trail, p) == NotFound)
      && ((long || Short(c)) && o.None? ==> Resolve(root, long, trail, p) == NotFound)
      && ((long || Short(c)) && o.Some? && |c| == |p| ==> Resolve(root, long, trail, p) == Found(trail + [o.s]))
      && ((long || Short(c)) && o.Some? && |c| < |p| ==>
          && Resolve(root, long, trail, p) == Resolve(root, long, trail + [o.s], p[|c| + 1..])
             && Trail(root, trail + [o.s]))
  {
    var c, d := Component(p), trail[|trail| - 1];
    hide Resolve, FindChild, Component, Short, Ordinary, IsChild;
    ResolveDown(root, long, trail, p);
    var o := FindChild(d.n.kids, d.i + 1, c, |c| < |p|);
    if o.Some? {
      FoundIsChild(d.n.kids, d.i + 1, c, |c| < |p|);
      if |c| < |p| { TrailDown(root, trail, o.s); }
    }
  }

  // ----- names without slashes

  /** No name holds a slash. */
  predicate Plain(n: Node) {
    '/' !in n.name && match n case File(_, _, _) => true case Dir(_, kids) => PlainForest(kids)
  }

  predicate PlainForest(f: Forest) {
    match f case Nil => true case Cons(h, t) => Plain(h) && PlainForest(t)
  }

  lemma {:induction false} PlainChild(f: Forest, i: nat, s: Spot)
    requires PlainForest(f) && IsChild(f, i, s)
    ensures Plain(s.n)
    decreases f
  {
    match f case Cons(h, t) => if s != Spot(i, h) { PlainChild(t, i + Size(h), s); }
  }

  lemma {:induction false} PlainTrail(root: Node, trail: seq<Spot>, k: nat)
    requires Trail(root, trail) && Plain(root) && k < |trail|
    ensures Plain(trail[k].n)
  {
    if k > 0 {
      PlainTrail(root, trail, k - 1);
      assert Child(trail[k - 1], trail[k]);
      PlainChild(trail[k - 1].n.kids, trail[k - 1].i + 1, trail[k]);
    }
  }

  /** What the scan knows after `n` characters of component `c`. */
  ghost predicate Scanned(c: string, n: nat, illegal: bool, extension: bool, start: int) {
    && n <= |c|
    && (illegal <==> ' ' in c[..n])
    && (if extension then 0 < start <= n else start <= 0)
    && (extension ==> c[start - 1] == '.' && start - 1 <= 8)
    && (forall i :: 0 <= i < n && c[i] == '.' ==> extension && i == start - 1)
  }
}
