// get_file_count (src/tcp_process.c:605-646) over a finite directory tree.
module FileCount {

  // A directory that cannot be opened, or its entries in the order readdir gives them.
  datatype Dir = Unreadable | Dir(entries: seq<Entry>)

  datatype Entry = Entry(name: string, kind: Kind)

  datatype Kind = Regular | SubDir(dir: Dir) | Other

  const UNREADABLE: int := 0xffff

  predicate Skipped(e: Entry) { e.name == "." || e.name == ".." }

  // Paths of the regular files below a directory, and of the directories that cannot be
  // opened: the definition the count is measured against.
  function Paths(d: Dir, blocked: bool): set<seq<string>>
    decreases d, 0
  {
    match d
    case Unreadable => if blocked then {[]} else {}
    case Dir(entries) => PathsIn(entries, blocked)
  }

  function PathsIn(es: seq<Entry>, blocked: bool): set<seq<string>>
    decreases es, 1
  {
    if es == [] then {} else
    PathsIn(es[..|es| - 1], blocked) + PathsOf(es[|es| - 1], blocked)
  }

  function PathsOf(e: Entry, blocked: bool): set<seq<string>>
    decreases e, 0
  {
    if Skipped(e) then {} else
    match e.kind
    case Regular => if blocked then {} else {[e.name]}
    case SubDir(d) => set p | p in Paths(d, blocked) :: [e.name] + p
    case Other => {}
  }

  // Names in one directory differ, at every level.
  predicate Proper(d: Dir)
    decreases d
  {
    d.Dir? ==>
      && (forall i, j :: 0 <= i < j < |d.entries| ==> d.entries[i].name != d.entries[j].name)
      && (forall e <- d.entries :: e.kind.SubDir? ==> Proper(e.kind.dir))
  }

  // The sum of the contributions, whatever becomes of errno.
  function Count(d: Dir): int
    decreases d, 0
  {
    match d
    case Unreadable => UNREADABLE
    case Dir(entries) => CountIn(entries)
  }

  function CountIn(es: seq<Entry>): int
    decreases es, 1
  {
    if es == [] then 0 else CountIn(es[..|es| - 1]) + CountOf(es[|es| - 1])
  }

  function CountOf(e: Entry): int
    decreases e, 0
  {
    if Skipped(e) then 0 else
    match e.kind
    case Regular => 1
    case SubDir(d) => Count(d)
    case Other => 0
  }

  // A subdirectory that cannot be opened, and one that can, as the loop meets them.
  predicate Blocked(e: Entry) { !Skipped(e) && e.kind.SubDir? && e.kind.dir.Unreadable? }
  predicate Opens(e: Entry) { !Skipped(e) && e.kind.SubDir? && e.kind.dir.Dir? }

  // A failed opendir leaves errno set, and only the next directory that opens clears it.
  predicate ErrnoLeft(es: seq<Entry>) {
    exists i :: 0 <= i < |es| && Blocked(es[i]) && forall j :: i < j < |es| ==> !Opens(es[j])
  }

  // In every directory that opens, each blocked subdirectory has a later sibling that opens.
  predicate Survives(d: Dir)
    decreases d
  {
    d.Dir? ==> !ErrnoLeft(d.entries) && forall e <- d.entries :: Opens(e) ==> Survives(e.kind.dir)
  }

  lemma {:induction false} ErrnoStep(es: seq<Entry>, e: Entry)
    ensures ErrnoLeft(es + [e]) <==> Blocked(e) || (ErrnoLeft(es) && !Opens(e))
  {
    var all := es + [e];
    if Blocked(e) {
      assert Blocked(all[|es|]);
    } else if Opens(e) {
      assert Opens(all[|es|]);
    } else if ErrnoLeft(es) {
      var i :| 0 <= i < |es| && Blocked(es[i]) && forall j :: i < j < |es| ==> !Opens(es[j]);
      assert Blocked(all[i]);
    } else {
      forall i | 0 <= i < |all| && Blocked(all[i]) ensures exists j :: i < j < |all| && Opens(all[j]) {
        assert Blocked(es[i]);
        var j :| i < j < |es| && Opens(es[j]);
        assert Opens(all[j]);
      }
    }
  }

  // exit(1), or a total together with whether errno is set on return.
  datatype Outcome = Exited | Returned(total: int, errno: bool)

  // The recursion of the source, one readdir loop for each directory; errno is shared by all.
  method GetFileCount(d: Dir) returns (r: Outcome)
    ensures r == if Survives(d) then Returned(Count(d), d.Unreadable?) else Exited
    decreases d
  {
    if d.Unreadable? {
      return Returned(UNREADABLE, true);
    }
    var es := d.entries;
    var errno, total, i := false, 0, 0;
    while i < |es|
      invariant i <= |es|
      invariant total == CountIn(es[..i])
      invariant errno <==> ErrnoLeft(es[..i])
      invariant forall e <- es[..i] :: Opens(e) ==> Survives(e.kind.dir)
    {
      var e := es[i];
      assert es[..i + 1] == es[..i] + [e];
      ErrnoStep(es[..i], e);
      if e.name == "." || e.name == ".." {
        i := i + 1;
        continue;
      }
      if e.kind.SubDir? {
        var below := GetFileCount(e.kind.dir);
        if below.Exited? {
          return Exited;
        }
        total, errno := total + below.total, below.errno;
      }
      if e.kind.Regular? {
        total := total + 1;
      }
      i := i + 1;
    }
    assert es[..i] == es;
    if errno {
      return Exited;
    }
    return Returned(total, false);
  }

  // A directory whose only entry cannot be opened does not contribute 0xffff: the program exits.
  lemma LoneBlockedExits(name: string)
    requires name != "." && name != ".."
    ensures var lone := Dir([Entry(name, SubDir(Unreadable))]);
      Proper(lone) && Count(lone) == UNREADABLE && !Survives(lone)
  {
    var lone := Dir([Entry(name, SubDir(Unreadable))]);
    var e := lone.entries[0];
    assert Blocked(e);
    assert lone.entries[..0] == [];
    assert CountOf(e) == Count(Unreadable);
    assert CountIn(lone.entries) == CountIn([]) + CountOf(e);
  }

  // Putting a name in front of every path keeps the number of paths.
  lemma {:induction false} PrefixCount(name: string, paths: set<seq<string>>)
    ensures |set p | p in paths :: [name] + p| == |paths|
    decreases |paths|
  {
    var image := set p | p in paths :: [name] + p;
    if paths == {} {
      assert image == {};
    } else {
      var q :| q in paths;
      var rest := paths - {q};
      PrefixCount(name, rest);
      var restImage := set p | p in rest :: [name] + p;
      assert image == restImage + {[name] + q};
      assert forall p: seq<string> :: ([name] + p)[1..] == p;
      assert [name] + q !in restImage;
    }
  }

  lemma {:induction false} StartsWithName(es: seq<Entry>, blocked: bool, p: seq<string>)
    requires p in PathsIn(es, blocked)
    ensures p != [] && exists e :: e in es && e.name == p[0]
  {
    var n := |es| - 1;
    if p in PathsIn(es[..n], blocked) {
      StartsWithName(es[..n], blocked, p);
    } else {
      assert es[n] in es;
    }
  }

  lemma {:induction false} CountOfPaths(e: Entry)
    requires e.kind.SubDir? ==> Proper(e.kind.dir)
    ensures CountOf(e) == |PathsOf(e, false)| + UNREADABLE * |PathsOf(e, true)|
    decreases e, 0
  {
    if !Skipped(e) && e.kind.SubDir? {
      CountIsPaths(e.kind.dir);
      PrefixCount(e.name, Paths(e.kind.dir, false));
      PrefixCount(e.name, Paths(e.kind.dir, true));
    }
  }

  lemma {:induction false} DisjointLast(es: seq<Entry>, blocked: bool)
    requires es != [] && forall i, j :: 0 <= i < j < |es| ==> es[i].name != es[j].name
    ensures PathsIn(es[..|es| - 1], blocked) !! PathsOf(es[|es| - 1], blocked)
  {
    var n := |es| - 1;
    forall p | p in PathsIn(es[..n], blocked) && p in PathsOf(es[n], blocked) ensures false {
      StartsWithName(es[..n], blocked, p);
    }
  }

  lemma {:induction false} CountInPaths(es: seq<Entry>)
    requires forall i, j :: 0 <= i < j < |es| ==> es[i].name != es[j].name
    requires forall e <- es :: e.kind.SubDir? ==> Proper(e.kind.dir)
    ensures CountIn(es) == |PathsIn(es, false)| + UNREADABLE * |PathsIn(es, true)|
    decreases es, 1
  {
    if es != [] {
      var n := |es| - 1;
      CountInPaths(es[..n]);
      CountOfPaths(es[n]);
      DisjointLast(es, false);
      DisjointLast(es, true);
    }
  }

  // The sum is the number of regular files at any depth, plus 0xffff for every directory
  // that cannot be opened.
  lemma {:induction false} CountIsPaths(d: Dir)
    requires Proper(d)
    ensures Count(d) == |Paths(d, false)| + UNREADABLE * |Paths(d, true)|
    decreases d, 0
  {
    if d.Dir? {
      CountInPaths(d.entries);
    }
  }
}
