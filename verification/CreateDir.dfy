// CreateDir (src/store.c:624-647): make every missing directory on the way to a path, by
// cutting a copy of the path at each slash in turn.
module CreateDir {

  const NUL: char := '\0'
  const NAME_SIZE: nat := 256

  // The path components a string resolves to; repeated and trailing slashes do not matter.
  function Components(p: string): (c: seq<string>)
    ensures p != "" && p[|p| - 1] != '/' ==> c != []
  {
    if p == "" then [] else
    var n := |p| - 1;
    var before := Components(p[..n]);
    if p[n] == '/' then before
    else if n == 0 || p[n - 1] == '/' then before + [[p[n]]]
    else before[..|before| - 1] + [before[|before| - 1] + [p[n]]]
  }

  function Parent(c: seq<string>): seq<string>
    requires c != []
  {
    c[..|c| - 1]
  }

  // What the C library reads from a buffer.
  function CString(b: seq<char>): string {
    if b == [] || b[0] == NUL then "" else [b[0]] + CString(b[1..])
  }

  lemma {:induction false} CStringIs(b: seq<char>, n: nat)
    requires n < |b| && b[n] == NUL && NUL !in b[..n]
    ensures CString(b) == b[..n]
  {
    if n > 0 {
      assert b[0] in b[..n];
      assert forall k :: 0 <= k < n - 1 ==> b[1..][k] in b[..n];
      CStringIs(b[1..], n - 1);
    }
  }

  // The paths cut out at the slashes of p before position i.
  ghost function Ancestors(p: string, i: nat): set<seq<string>>
  {
    set k | 1 <= k < i && k < |p| && p[k] == '/' :: Components(p[..k])
  }

  // Every path that is cut out leads towards the whole path ...
  lemma {:induction false} AncestorIsPrefix(p: string, k: nat)
    requires 1 <= k < |p| && p[k] == '/'
    ensures var a, c := Components(p[..k]), Components(p); a <= c && (p[|p| - 1] != '/' ==> a < c)
  {
    var n := |p| - 1;
    if k < n {
      var q := p[..n];
      assert q[..k] == p[..k];
      AncestorIsPrefix(q, k);
    }
  }

  // ... and no directory on the way is left out.
  lemma {:induction false} PrefixIsAncestor(p: string, c: seq<string>)
    requires c != [] && c < Components(p)
    ensures c in Ancestors(p, |p|)
  {
    var n := |p| - 1;
    var q := p[..n];
    var b := Components(q);
    if c < b {
      PrefixIsAncestor(q, c);
      var k :| 1 <= k < n && q[k] == '/' && Components(q[..k]) == c;
      assert p[..k] == q[..k];
    } else {
      assert p[n] != '/' && q != "" && q[n - 1] == '/' && c == b;
      assert p[..n - 1] == q[..n - 1] && p[n - 1] == '/';
      assert Components(p[..n - 1]) == c;
    }
  }

  // What exists, as component lists from the root; mkdir is refused where the name is taken,
  // the parent is not a directory or permission is denied.
  class FileSystem {
    var dirs: set<seq<string>>
    const files: set<seq<string>>
    const denied: set<seq<string>>
    ghost var asked: seq<seq<string>>    // every path given to mkdir

    ghost predicate Valid()
      reads this
    {
      [] in dirs && dirs !! files
    }

    function Existing(): set<seq<string>>
      reads this
    {
      dirs + files
    }

    constructor (dirs: set<seq<string>>, files: set<seq<string>>, denied: set<seq<string>>)
      requires [] in dirs && dirs !! files
      ensures Valid() && this.dirs == dirs && this.files == files && this.denied == denied && asked == []
    {
      this.dirs, this.files, this.denied, asked := dirs, files, denied, [];
    }

    method Access(path: string) returns (found: bool)
      ensures found <==> Components(path) in Existing()
    {
      found := Components(path) in dirs + files;
    }

    method Mkdir(path: string) returns (ok: bool)
      modifies this
      ensures asked == old(asked) + [Components(path)]
      ensures var c := Components(path);
        && (ok <==> c != [] && c !in old(Existing()) && Parent(c) in old(dirs) && c !in denied)
        && dirs == if ok then old(dirs) + {c} else old(dirs)
    {
      var c := Components(path);
      asked := asked + [c];
      ok := c != [] && c !in dirs + files && Parent(c) in dirs && c !in denied;
      if ok {
        dirs := dirs + {c};
      }
    }
  }

  // c may stand as an ancestor: it exists already, or it can be made once its parent is there.
  predicate Possible(fs: FileSystem, existing: set<seq<string>>, c: seq<string>) {
    c in existing || (c !in fs.denied && c != [] && Parent(c) !in fs.files)
  }

  // Every path asked for from n on was missing at first, was asked for once, and had a parent
  // that existed at first or had been asked for before.
  ghost predicate Orderly(asked: seq<seq<string>>, n: nat, existing: set<seq<string>>) {
    forall k :: n <= k < |asked| ==>
      && asked[k] != [] && asked[k] !in existing && asked[k] !in asked[n..k]
      && (Parent(asked[k]) in existing || Parent(asked[k]) in asked[n..k])
  }

  ghost function Made(asked: seq<seq<string>>, n: nat): set<seq<string>>
    requires n <= |asked|
  {
    set c | c in asked[n..]
  }

  lemma AskedGrows(asked: seq<seq<string>>, n: nat, existing: set<seq<string>>, c: seq<string>)
    requires n <= |asked|
    ensures Made(asked + [c], n) == Made(asked, n) + {c}
    ensures
      (Orderly(asked, n, existing) && c != [] && c !in existing + Made(asked, n)
       && Parent(c) in existing + Made(asked, n)) ==> Orderly(asked + [c], n, existing)
  {
    var longer := asked + [c];
    assert longer[n..] == asked[n..] + [c];
    assert forall k :: n <= k <= |asked| ==> longer[n..k] == asked[n..k];
  }

  // base is the part of path[..i] that ends at its last slash.
  ghost predicate Below(path: string, i: nat, base: seq<string>)
    requires 1 <= i <= |path|
  {
    var c := Components(path[..i]);
    if path[i - 1] == '/' then c == base else c != [] && Parent(c) == base
  }

  lemma BelowStarts(path: string)
    requires path != ""
    ensures Below(path, 1, [])
  {
    assert path[..1][..0] == "" && path[..1][0] == path[0];
  }

  lemma BelowGrows(path: string, i: nat, base: seq<string>)
    requires 1 <= i < |path| && Below(path, i, base)
    ensures Below(path, i + 1, if path[i] == '/' then Components(path[..i]) else base)
  {
    var p := path[..i + 1];
    assert p[..i] == path[..i] && p[i] == path[i];
    var c := Components(p);
    var before := Components(path[..i]);
    if path[i] == '/' {
      assert c == before;
    } else if path[i - 1] == '/' {
      assert c == before + [[path[i]]];
    } else {
      assert Parent(c) == before[..|before| - 1];
    }
  }

  lemma AncestorsGrow(path: string, i: nat)
    requires 1 <= i < |path|
    ensures Ancestors(path, i + 1) == Ancestors(path, i) + (if path[i] == '/' then {Components(path[..i])} else {})
  {
    hide Components;
  }

  // The body of the loop at a slash: cut the name there, look, make, and restore the slash.
  method Visit(name: array<char>, i: nat, fs: FileSystem, ghost path: string, ghost base: seq<string>)
    returns (ok: bool)
    requires fs.Valid() && 1 <= i < |path| < name.Length && NUL !in path
    requires name[..|path|] == path && path[i] == '/'
    requires base in fs.Existing() && Below(path, i, base)
    modifies name, fs
    ensures fs.Valid() && ok == Possible(fs, old(fs.Existing()), Components(path[..i]))
    ensures var c := Components(path[..i]);
      && fs.asked == old(fs.asked) + (if c in old(fs.Existing()) then [] else [c])
      && fs.dirs == old(fs.dirs) + (if ok && c !in fs.files then {c} else {})
      && (c in old(fs.Existing()) || (c != [] && Parent(c) == base))
    // a completed visit leaves the name as it was
    ensures ok ==> name[..] == old(name[..]) && name[..|path|] == path
  {
    name[i] := NUL;
    assert name[..i] == path[..i];
    CStringIs(name[..], i);
    var dir := CString(name[..]);
    var found := fs.Access(dir);
    if !found {
      ok := fs.Mkdir(dir);
      if !ok {
        return;
      }
    }
    name[i] := '/';
    ok := true;
  }

  // What holds when the slashes before position i are dealt with: d0 was there at the start,
  // and n0 paths had been given to mkdir by then.
  ghost predicate Progress(path: string, i: nat, base: seq<string>, fs: FileSystem,
      d0: set<seq<string>>, n0: nat, dirs: set<seq<string>>, asked: seq<seq<string>>) {
    && 1 <= i <= |path| && n0 <= |asked|
    && base in dirs + fs.files && Below(path, i, base)
    && dirs == d0 + (Ancestors(path, i) - fs.files) == d0 + Made(asked, n0)
    && Orderly(asked, n0, d0 + fs.files)
    && forall a <- Ancestors(path, i) :: Possible(fs, d0 + fs.files, a)
  }

  // A slash passed: the path cut there exists, or mkdir has just made it.
  lemma Advance(path: string, i: nat, base: seq<string>, fs: FileSystem,
      d0: set<seq<string>>, n0: nat, dirs: set<seq<string>>, asked: seq<seq<string>>)
    requires i < |path| && path[i] == '/' && dirs !! fs.files
    requires Progress(path, i, base, fs, d0, n0, dirs, asked)
    requires Possible(fs, dirs + fs.files, Components(path[..i]))
    requires var c := Components(path[..i]); c in dirs + fs.files || (c != [] && Parent(c) == base)
    ensures var c := Components(path[..i]);
      Progress(path, i + 1, c, fs, d0, n0, dirs + (if c in fs.files then {} else {c}),
        asked + (if c in dirs + fs.files then [] else [c]))
  {
    hide Components, Below, Ancestors, Made, Orderly;
    var c := Components(path[..i]);
    var e0, next := d0 + fs.files, dirs + (if c in fs.files then {} else {c});
    BelowGrows(path, i, base);
    AncestorsGrow(path, i);
    AskedGrows(asked, n0, e0, c);
    assert next == d0 + (Ancestors(path, i + 1) - fs.files);
    if c !in dirs + fs.files {
      assert e0 + Made(asked, n0) == dirs + fs.files;
      assert next == d0 + Made(asked + [c], n0);
      assert Parent(c) !in fs.files ==> Parent(c) in dirs;
    } else {
      assert next == dirs && asked + [] == asked;
    }
    assert Possible(fs, e0, c);
  }

  lemma Started(path: string, fs: FileSystem, d0: set<seq<string>>, n0: nat, asked: seq<seq<string>>)
    requires path != "" && [] in d0 && n0 == |asked|
    ensures Progress(path, 1, [], fs, d0, n0, d0, asked)
  {
    BelowStarts(path);
    hide Components, Below;
  }

  lemma Finished(path: string, base: seq<string>, fs: FileSystem,
      d0: set<seq<string>>, n0: nat, dirs: set<seq<string>>, asked: seq<seq<string>>)
    requires if path == "" then dirs == d0 && n0 == |asked|
             else Progress(path, |path|, base, fs, d0, n0, dirs, asked)
    ensures dirs == d0 + (Ancestors(path, |path|) - fs.files) == d0 + Made(asked, n0)
    ensures Orderly(asked, n0, d0 + fs.files)
    ensures forall a <- Ancestors(path, |path|) :: Possible(fs, d0 + fs.files, a)
  {
    hide Components, Below;
  }

  lemma Pass(path: string, i: nat, base: seq<string>, fs: FileSystem,
      d0: set<seq<string>>, n0: nat, dirs: set<seq<string>>, asked: seq<seq<string>>)
    requires i < |path| && Progress(path, i, base, fs, d0, n0, dirs, asked)
    ensures 1 <= i && base in dirs + fs.files && Below(path, i, base)
    ensures path[i] != '/' ==> Progress(path, i + 1, base, fs, d0, n0, dirs, asked)
  {
    BelowGrows(path, i, base);
    AncestorsGrow(path, i);
    hide Components, Below;
    assert path[i] != '/' ==> Ancestors(path, i + 1) == Ancestors(path, i);
  }

  // Once a cut path is not possible, neither was it at the start.
  lemma Blocked(path: string, i: nat, base: seq<string>, fs: FileSystem,
      d0: set<seq<string>>, n0: nat, dirs: set<seq<string>>, asked: seq<seq<string>>)
    requires i < |path| && path[i] == '/'
    requires Progress(path, i, base, fs, d0, n0, dirs, asked)
    requires var c := Components(path[..i]);
      c !in dirs + fs.files && c != [] && Parent(c) == base && !Possible(fs, dirs + fs.files, c)
    ensures var c := Components(path[..i]);
      && c in Ancestors(path, |path|) && !Possible(fs, d0 + fs.files, c)
      && Orderly(asked + [c], n0, d0 + fs.files)
    ensures d0 <= dirs <= d0 + Ancestors(path, |path|)
  {
    AskedGrows(asked, n0, d0 + fs.files, Components(path[..i]));
    hide Components, Below;
    assert Ancestors(path, i) <= Ancestors(path, |path|);
  }

  method Copied(path: string) returns (name: array<char>)
    requires |path| < NAME_SIZE
    ensures fresh(name) && name.Length == NAME_SIZE && name[..|path|] == path
  {
    name := new char[NAME_SIZE](_ => NUL);
    forall k | 0 <= k < |path| {
      name[k] := path[k];
    }
  }

  // Visit in terms of Progress.
  method AtSlash(name: array<char>, i: nat, fs: FileSystem, ghost path: string, ghost base: seq<string>,
      ghost d0: set<seq<string>>, ghost n0: nat) returns (ok: bool)
    requires fs.Valid() && |path| < name.Length && NUL !in path && name[..|path|] == path
    requires i < |path| && path[i] == '/' && Progress(path, i, base, fs, d0, n0, fs.dirs, fs.asked)
    modifies name, fs
    ensures fs.Valid() && old(fs.asked) <= fs.asked && (ok ==> name[..|path|] == path)
    ensures ok ==> Progress(path, i + 1, Components(path[..i]), fs, d0, n0, fs.dirs, fs.asked)
    ensures !ok ==>
      && !(forall a <- Ancestors(path, |path|) :: Possible(fs, d0 + fs.files, a))
      && d0 <= fs.dirs <= d0 + Ancestors(path, |path|)
      && Orderly(fs.asked, n0, d0 + fs.files)
  {
    hide Components, Below, Orderly, Made, Parent, Progress, Ancestors;
    Pass(path, i, base, fs, d0, n0, fs.dirs, fs.asked);
    ghost var dirs, asked, c := fs.dirs, fs.asked, Components(path[..i]);
    ok := Visit(name, i, fs, path, base);
    if ok {
      Advance(path, i, base, fs, d0, n0, dirs, asked);
    } else {
      Blocked(path, i, base, fs, d0, n0, dirs, asked);
    }
  }

  method CreateDir(path: string, fs: FileSystem) returns (r: int)
    requires fs.Valid() && |path| < NAME_SIZE && NUL !in path
    modifies fs
    ensures fs.Valid() && (r == 0 || r == -1)
    // it succeeds exactly when no ancestor is impossible
    ensures r == 0 <==> forall a <- Ancestors(path, |path|) :: Possible(fs, old(fs.Existing()), a)
    // then every ancestor exists, and nothing else was made; existing directories stay in any case
    ensures r == 0 ==> fs.dirs == old(fs.dirs) + (Ancestors(path, |path|) - fs.files)
    ensures old(fs.dirs) <= fs.dirs <= old(fs.dirs) + Ancestors(path, |path|)
    // mkdir is asked for missing directories only, parents first; on success it made just those
    ensures old(fs.asked) <= fs.asked && Orderly(fs.asked, |old(fs.asked)|, old(fs.Existing()))
    ensures r == 0 ==> fs.dirs == old(fs.dirs) + Made(fs.asked, |old(fs.asked)|)
  {
    var name := Copied(path);
    ghost var d0, n0 := fs.dirs, |fs.asked|;
    ghost var base: seq<string> := [];
    hide Components, Below, Possible, Orderly, Made, Parent, Progress, Ancestors;
    var len := |path|;
    if len > 0 { Started(path, fs, d0, n0, fs.asked); }
    var i := 1;
    while i < len
      invariant name[..len] == path && fs.Valid() && old(fs.asked) <= fs.asked
      invariant if len == 0 then i == 1 && fs.dirs == d0 && fs.asked == old(fs.asked)
                else 1 <= i <= len && Progress(path, i, base, fs, d0, n0, fs.dirs, fs.asked)
      decreases len - i
    {
      if name[i] == '/' {
        var ok := AtSlash(name, i, fs, path, base, d0, n0);
        if !ok {
          return -1;
        }
        base := Components(path[..i]);
      } else {
        Pass(path, i, base, fs, d0, n0, fs.dirs, fs.asked);
      }
      i := i + 1;
    }
    Finished(path, base, fs, d0, n0, fs.dirs, fs.asked);
    r := 0;
  }
}
