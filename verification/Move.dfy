/** Renaming as the user asks for it: the paths as given, the guard on them, and the graft and removal that follow. */
module Move {
  import opened Core
  import opened Directory
  import opened Blobs
  import opened Samples
  import opened Graft

  // ---------------------------------------------------------------- paths as given

  /** A slash path as given: whether it starts with a slash, and what lies between the others. */
  datatype Raw = Raw(rooted: bool, comps: seq<string>)

  /** A cleaned path: rooted, or so many steps up first, and then names. */
  datatype Cleaned = Cleaned(rooted: bool, ups: nat, parts: Path)

  const EMPTY := Raw(false, [""])

  /** One more component: nothing and "." stay, ".." goes up, a name goes down. */
  function Push(c: Cleaned, x: string): Cleaned {
    if x == "" || x == "." then c
    else if x != ".." then c.(parts := c.parts + [x])
    else if c.parts != [] then c.(parts := c.parts[..|c.parts| - 1])
    else if c.rooted then c
    else c.(ups := c.ups + 1)
  }

  function Clean(p: Raw): Cleaned
    decreases |p.comps|
  {
    if p.comps == [] then Cleaned(p.rooted, 0, [])
    else Push(Clean(Raw(p.rooted, p.comps[..|p.comps| - 1])), p.comps[|p.comps| - 1])
  }

  /** The last component that is not empty, if there is one. */
  function LastName(comps: seq<string>): Option<string> {
    if comps == [] then None
    else if comps[|comps| - 1] != "" then Some(comps[|comps| - 1])
    else LastName(comps[..|comps| - 1])
  }

  /** A path's base name, unless it is one that names the root itself. */
  function BaseName(p: Raw): Option<string> {
    if LastName(p.comps) == Some(".") then None else LastName(p.comps)
  }

  predicate EndsInSlash(p: Raw) {
    (|p.comps| > 1 && p.comps[|p.comps| - 1] == "") || (p.rooted && p.comps == [""])
  }

  /** The path without its last slash; a lone slash leaves nothing, which is not rooted. */
  function CutSlash(p: Raw): Raw {
    if |p.comps| > 1 then Raw(p.rooted, p.comps[..|p.comps| - 1]) else EMPTY
  }

  /** Nothing, a trailing slash or an existing directory means into it under the source's base name. */
  function DestPath(m: BlobMap, root: ReadCap, dst: Raw, base: string): Cleaned {
    if EndsInSlash(dst) then Push(Clean(CutSlash(dst)), base)
    else
      var c := Clean(dst);
      var at := Resolve(m, root, c.parts);
      if dst == EMPTY || (at.Some? && at.value.kind == KindDir) then Push(c, base) else c
  }

  /** Neither rooted where the other is not, nor so many steps up. */
  predicate SameLead(a: Cleaned, b: Cleaned) {
    a.rooted == b.rooted && a.ups == b.ups
  }

  /** The guard compares the cleaned paths as strings. */
  predicate Refused(src: Cleaned, dst: Cleaned) {
    SameLead(src, dst) && IsPrefix(src.parts, dst.parts)
  }

  /** A trailing slash is cut and nothing else; a lone one leaves nothing. */
  lemma SlashCut(rooted: bool, comps: seq<string>)
    requires comps != []
    ensures EndsInSlash(Raw(rooted, comps + [""])) && CutSlash(Raw(rooted, comps + [""])) == Raw(rooted, comps)
    ensures EndsInSlash(Raw(true, [""])) && CutSlash(Raw(true, [""])) == Raw(false, [""]) && !EndsInSlash(Raw(false, [""]))
    ensures comps[|comps| - 1] != "" ==> !EndsInSlash(Raw(rooted, comps))
  {
    assert (comps + [""])[..|comps|] == comps;
  }

  // ---------------------------------------------------------------- what cleaning means

  predicate IsName(x: string) {
    x != "" && x != "." && x != ".."
  }

  /** A name and then ".." is nothing, and so are "" and ".". */
  lemma CleanCancels(rooted: bool, comps: seq<string>, x: string)
    ensures IsName(x) ==> Clean(Raw(rooted, comps + [x, ".."])) == Clean(Raw(rooted, comps))
    ensures Clean(Raw(rooted, comps + [""])) == Clean(Raw(rooted, comps + ["."])) == Clean(Raw(rooted, comps))
  {
    var up := comps + [x, ".."];
    assert up[..|comps| + 1] == comps + [x] && (comps + [x])[..|comps|] == comps;
    assert (comps + [""])[..|comps|] == comps && (comps + ["."])[..|comps|] == comps;
    var c := Clean(Raw(rooted, comps));
    assert (c.parts + [x])[..|c.parts|] == c.parts;
  }

  /** A cleaned path written out again. */
  function Written(c: Cleaned): Raw {
    Raw(c.rooted, seq(c.ups, _ => "..") + c.parts)
  }

  /** Only names are left, and nothing leads above the root. */
  ghost predicate IsClean(c: Cleaned) {
    (forall x :: x in c.parts ==> IsName(x)) && (c.rooted ==> c.ups == 0)
  }

  lemma {:induction false} CleanIsClean(p: Raw)
    ensures IsClean(Clean(p)) && Clean(p).rooted == p.rooted
    decreases |p.comps|
  {
    if p.comps != [] { CleanIsClean(Raw(p.rooted, p.comps[..|p.comps| - 1])); }
  }

  lemma {:induction false} CleanStays(c: Cleaned)
    requires IsClean(c)
    ensures Clean(Written(c)) == c
    decreases c.ups + |c.parts|
  {
    var w := Written(c).comps;
    if c.parts != [] {
      var front := c.(parts := c.parts[..|c.parts| - 1]);
      assert w[..|w| - 1] == Written(front).comps && w[|w| - 1] in c.parts;
      assert front.parts + [w[|w| - 1]] == c.parts;
      CleanStays(front);
    } else if c.ups > 0 {
      var front := c.(ups := c.ups - 1);
      assert w[..|w| - 1] == Written(front).comps;
      CleanStays(front);
    }
  }

  /** Cleaning a cleaned path changes nothing. */
  lemma CleanTwice(p: Raw)
    ensures Clean(Written(Clean(p))) == Clean(p)
  {
    CleanIsClean(p);
    CleanStays(Clean(p));
  }

  /** The base name is the last component that is not empty, however many slashes follow it; "." and nothing have none. */
  lemma {:induction false} BaseNameIs(rooted: bool, front: seq<string>, x: string, slashes: nat)
    requires x != ""
    ensures BaseName(Raw(rooted, front + [x] + Repeat("", slashes))) == if x == "." then None else Some(x)
    ensures BaseName(Raw(rooted, Repeat("", slashes))) == None
  {
    var comps := front + [x] + Repeat("", slashes);
    if slashes == 0 {
      assert comps == front + [x];
    } else {
      BaseNameIs(rooted, front, x, slashes - 1);
      assert comps[..|comps| - 1] == front + [x] + Repeat("", slashes - 1);
      assert Repeat("", slashes)[..slashes - 1] == Repeat("", slashes - 1);
    }
  }

  /** A plain base name is the last name of the cleaned path. */
  lemma {:induction false} PlainBase(p: Raw, base: string)
    requires LastName(p.comps) == Some(base) && base != "." && base != ".."
    ensures Clean(p).parts != [] && Clean(p).parts[|Clean(p).parts| - 1] == base
    decreases |p.comps|
  {
    if p.comps[|p.comps| - 1] == "" { PlainBase(Raw(p.rooted, p.comps[..|p.comps| - 1]), base); }
  }

  /** The source lies below its own base name in the directory the user names: `mv a/b/c/b a`. */
  predicate HomeAbove(src: Path, dst: Path) {
    src != [] && |dst| + 1 < |src| && IsPrefix(dst + [src[|src| - 1]], src)
  }

  /** Of a source with a plain base name, a destination above it is always one made by appending that name. */
  lemma DestAbove(m: BlobMap, root: ReadCap, src: Raw, dst: Raw, base: string)
    requires BaseName(src) == Some(base) && base != ".." && Resolve(m, root, Clean(src).parts).Some?
    ensures var s, given, d := Clean(src).parts, Clean(if EndsInSlash(dst) then CutSlash(dst) else dst).parts, DestPath(m, root, dst, base).parts;
            |d| < |s| && IsPrefix(d, s) <==> HomeAbove(s, given)
  {
    PlainBase(src, base);
    LastNotEmpty(src.comps);
    var s, given := Clean(src).parts, Clean(if EndsInSlash(dst) then CutSlash(dst) else dst).parts;
    if |given| < |s| && IsPrefix(given, s) { ThroughDirs(m, root, s, |given|); }
    hide Resolve, Clean;
    if HomeAbove(s, given) {
      assert (given + [base])[..|given|] == given;
    }
  }

  lemma {:induction false} LastNotEmpty(comps: seq<string>)
    ensures LastName(comps) != Some("")
  {
    if comps != [] { LastNotEmpty(comps[..|comps| - 1]); }
  }

  // ---------------------------------------------------------------- graft, then remove

  datatype MoveError = Load(error: LoadError) | SamePath | IntoItself

  /**
   * Grafting src at dst and then removing src, whatever the two paths. Nothing is left at or below src; it is a
   * move exactly for paths apart. Above the source it succeeds exactly when what is moved continues the same way,
   * elsewhere unless something on the way is no directory.
   */
  ghost predicate MoveOutcome(m: BlobMap, root: ReadCap, src: Path, dst: Path, m': BlobMap, r: Result<ReadCap, MoveError>) {
    && (dst == [] ==> r.Err?)
    && (r.Ok? ==> Emptied(m', r.value, src) && (Moved(m, root, m', r.value, src, dst) <==> Incomparable(src, dst)))
    && (dst != [] ==>
          if |dst| < |src| && IsPrefix(dst, src) then r.Ok? <==> Resolve(m, root, src + src[|dst|..]).Some?
          else r.Ok? <==> !Blocked(m, root, dst))
  }

  ghost predicate Emptied(m: BlobMap, root: ReadCap, src: Path) {
    forall q :: Resolve(m, root, src + q) == None
  }

  method GraftAndRemove(s: BlobStore, cfg: Config, root: ReadCap, src: Path, dst: Path, e: Entry)
    returns (r: Result<ReadCap, MoveError>)
    requires s.Valid() && cfg.params.Valid() && root.key < s.nextKey
    requires src != [] && Resolve(s.blobs, root, src) == Some(e.cap) && Homed(e.cap)
    modifies s
    ensures Grew(s)
    ensures MoveOutcome(old(s.blobs), root, src, dst, s.blobs, r) && (r.Err? ==> r.error.Load?)
  {
    ghost var m, n := s.blobs, s.nextKey;
    ResolveKnown(m, n, root, src);
    var g := Graft.Graft(s, cfg, root, dst, e.cap, e.stat);
    if g.Err? {
      if IsPrefix(dst, src) { PrefixNotBlocked(m, root, src, dst); }
      r := Err(Load(g.error));
    } else {
      ghost var m1, n1 := s.blobs, s.nextKey;
      var g2 := GraftRemove(s, cfg, g.value, src);
      MoveDone(m, n, root, m1, n1, g.value, s.blobs, s.nextKey, g2, src, dst, GraftEntry(dst, e.cap, e.stat));
      r := if g2.Err? then Err(Load(g2.error)) else Ok(g2.value);
    }
  }

  lemma MoveDone(m: BlobMap, n: nat, root: ReadCap, m1: BlobMap, n1: nat, root1: ReadCap,
                 m2: BlobMap, n2: nat, g2: Result<ReadCap, LoadError>, src: Path, dst: Path, e: Entry)
    requires WellFormed(m, n) && Extends(m, n, m1, n1) && src != [] && dst != [] && root.key < n
    requires Resolve(m, root, src) == Some(e.cap) && !Blocked(m, root, dst)
    requires Grafted(m, root, m1, root1, dst, e) && RemoveOutcome(m1, n1, root1, src, m2, n2, g2)
    ensures MoveOutcome(m, root, src, dst, m2, if g2.Err? then Err(Load(g2.error)) else Ok(g2.value))
  {
    hide WellFormed, Extends, Moved, Blocked;
    if IsPrefix(src, dst) {
      StillThereAbove(m, root, m1, root1, src, dst, e);
    } else if IsPrefix(dst, src) {
      AfterUpwardGraft(m, n, root, m1, n1, root1, src, dst, e);
    } else {
      StillThere(m, root, m1, root1, src, dst);
    }
    if g2.Ok? {
      if IsPrefix(src, dst) {
        NothingMoved(m, root, m2, g2.value, src, dst);
      } else {
        MoveExactness(m, n, root, m1, n1, root1, m2, n2, g2.value, src, dst, e);
      }
    }
  }

  /** What a graft at or below src goes through is still there. */
  lemma StillThereAbove(m: BlobMap, root: ReadCap, m1: BlobMap, root1: ReadCap, src: Path, dst: Path, e: Entry)
    requires src != [] && IsPrefix(src, dst) && Grafted(m, root, m1, root1, dst, e)
    ensures Resolve(m1, root1, src).Some?
  {
    if |src| == |dst| {
      assert dst + [] == src;
      assert Resolve(m1, root1, dst + []) == Resolve(m1, e.cap, []);
    } else {
      assert Rewritten(m, root, m1, root1, dst[..|src|]);
    }
  }

  /** What was grafted at or below src goes with it. */
  lemma NothingMoved(m: BlobMap, root: ReadCap, m2: BlobMap, root2: ReadCap, src: Path, dst: Path)
    requires Resolve(m, root, src).Some? && IsPrefix(src, dst) && Emptied(m2, root2, src)
    ensures !Moved(m, root, m2, root2, src, dst)
  {
    hide Resolve;
    assert dst == src + dst[|src|..] && src + [] == src && dst + [] == dst;
    assert Resolve(m2, root2, src + dst[|src|..]) == None;
    assert Resolve(m2, root2, dst + []) != Resolve(m, root, src + []);
  }

  // ---------------------------------------------------------------- the command

  /** A source that names something other than the root. */
  ghost predicate Movable(m: BlobMap, root: ReadCap, src: Raw) {
    BaseName(src).Some? && Clean(src).parts != [] && Resolve(m, root, Clean(src).parts).Some?
  }

  /**
   * A move as the user asks for it. It is refused as onto or into itself exactly when the cleaned destination
   * starts with the cleaned source, both rooted or both as far up. Otherwise it goes ahead.
   */
  ghost predicate UserOutcome(m: BlobMap, root: ReadCap, src: Raw, dst: Raw, m': BlobMap, r: Result<ReadCap, MoveError>) {
    && (!Movable(m, root, src) ==> r.Err? && r.error.Load?)
    && (Movable(m, root, src) ==>
          var s, d := Clean(src), DestPath(m, root, dst, BaseName(src).value);
          && (r.Err? && !r.error.Load? <==> s.rooted == d.rooted && s.ups == d.ups && IsPrefix(s.parts, d.parts))
          && (r.Ok? || r.error.Load? ==> MoveOutcome(m, root, s.parts, d.parts, m', r)))
  }

  method FindDest(s: BlobStore, root: ReadCap, dst: Raw, base: string) returns (d: Cleaned)
    requires s.Valid()
    ensures d == DestPath(s.blobs, root, dst, base)
  {
    if EndsInSlash(dst) { return Push(Clean(CutSlash(dst)), base); }
    if dst == EMPTY { return Push(Clean(dst), base); }
    var c := ResolvePath(s, root, Clean(dst).parts);
    return if c.Ok? && c.value.kind == KindDir then Push(Clean(dst), base) else Clean(dst);
  }

  /** Move src to where the user's destination leads, in one new root: graft, then remove. */
  method MvRename(s: BlobStore, cfg: Config, root: ReadCap, src: Raw, dst: Raw) returns (r: Result<ReadCap, MoveError>)
    requires s.Valid() && cfg.params.Valid() && root.key < s.nextKey
    modifies s
    ensures Grew(s)
    ensures UserOutcome(old(s.blobs), root, src, dst, s.blobs, r)
  {
    hide MoveOutcome, Clean, DestPath, Resolve, BaseName;
    var from := Clean(src);
    var e := ResolveEntry(s, root, from.parts);
    if e.Err? {
      r := Err(Load(e.error));
    } else if BaseName(src).None? || from.parts == [] {
      r := Err(Load(RootPath));
    } else {
      var to := FindDest(s, root, dst, BaseName(src).value);
      if from == to {
        r := Err(SamePath);
      } else if Refused(from, to) {
        r := Err(IntoItself);
      } else {
        r := GraftAndRemove(s, cfg, root, from.parts, to.parts, e.value);
      }
    }
  }

  /** A completed move is exact exactly when neither path contains the other; otherwise what was moved is lost, whole or in part. */
  lemma ExactMoveIff(m: BlobMap, root: ReadCap, src: Raw, dst: Raw, m': BlobMap, r: Result<ReadCap, MoveError>)
    requires Movable(m, root, src) && UserOutcome(m, root, src, dst, m', r) && r.Ok?
    ensures var s, d := Clean(src), DestPath(m, root, dst, BaseName(src).value);
            && Emptied(m', r.value, s.parts)
            && (Moved(m, root, m', r.value, s.parts, d.parts) <==> Incomparable(s.parts, d.parts))
            && (IsPrefix(s.parts, d.parts) ==> !SameLead(s, d))
  {
  }

  // ---------------------------------------------------------------- moves that lose

  /** `mv /a` to the namespace root, given as nothing or as a slash: the guard passes and all of a is gone. */
  lemma RootedMoveLosesAll(m: BlobMap, root: ReadCap, a: string, dst: Raw, m': BlobMap, r: Result<ReadCap, MoveError>)
    requires IsName(a) && Resolve(m, root, [a]).Some? && (dst == EMPTY || dst == Raw(true, [""]))
    requires UserOutcome(m, root, Raw(true, [a]), dst, m', r)
    ensures r.Ok? && Emptied(m', r.value, [a])
  {
    var src := Raw(true, [a]);
    CleanOne(true, a);
    CleanOne(false, "");
    assert DestPath(m, root, dst, a) == Cleaned(false, 0, [a]);
    NotBlocked(m, root, [a]);
    hide Resolve, Blocked, Moved, Emptied;
  }

  /** So is it when /a is moved to a path below a. */
  lemma RootedMoveInside(m: BlobMap, root: ReadCap, a: string, b: string, m': BlobMap, r: Result<ReadCap, MoveError>)
    requires IsName(a) && IsName(b) && Resolve(m, root, [a]).Some? && Resolve(m, root, [a, b]).None? && !Blocked(m, root, [a, b])
    requires UserOutcome(m, root, Raw(true, [a]), Raw(false, [a, b]), m', r)
    ensures r.Ok? && Emptied(m', r.value, [a])
  {
    CleanOne(true, a);
    CleanTwo(a, b);
    assert [a, b][..1] == [a];
    hide Resolve, Blocked, Moved, Emptied;
  }

  lemma CleanOne(rooted: bool, x: string)
    requires x == "" || IsName(x)
    ensures Clean(Raw(rooted, [x])) == Cleaned(rooted, 0, if x == "" then [] else [x])
    ensures LastName([x]) == if x == "" then None else Some(x)
  {
    assert [x][..0] == [];
    assert LastName([]) == None;
  }

  lemma CleanTwo(a: string, b: string)
    requires IsName(a) && IsName(b)
    ensures Clean(Raw(false, [a, b])) == Cleaned(false, 0, [a, b])
  {
    assert [a, b][..1] == [a];
    CleanOne(false, a);
  }

  /** With a/b/b/b present, `mv a/b/b a` succeeds and is not a move. */
  lemma LossyMoveExists() returns (m: BlobMap, root: ReadCap)
    ensures WellFormed(m, 6) && root.key < 6 && root in m && Resolve(m, root, ["a", "b", "b", "b"]).Some?
    ensures forall m', r :: UserOutcome(m, root, Raw(false, ["a", "b", "b"]), Raw(false, ["a"]), m', r) ==>
              r.Ok? && !Moved(m, root, m', r.value, ["a", "b", "b"], ["a", "b"])
  {
    m, root := LossyStore();
    var src: Path := ["a", "b", "b"];
    LossyPaths(m, root);
    assert src + src[2..] == ["a", "b", "b", "b"] && src[..2] == ["a", "b"];
    var p: Path := ["a", "b", "b", "b"];
    assert p == src + ["b"];
    ResolveConcat(m, root, src, ["b"]);
    hide Moved, Blocked, Resolve, DestPath, Clean, Emptied;
  }

  lemma LossyPaths(m: BlobMap, root: ReadCap)
    requires Resolve(m, root, ["a", "b", "b", "b"]).Some?
    ensures Clean(Raw(false, ["a", "b", "b"])) == Cleaned(false, 0, ["a", "b", "b"]) && BaseName(Raw(false, ["a", "b", "b"])) == Some("b")
    ensures DestPath(m, root, Raw(false, ["a"]), "b") == Cleaned(false, 0, ["a", "b"])
  {
    var p: Path := ["a", "b", "b", "b"];
    assert ["a", "b", "b"][..2] == ["a", "b"] && p[..1] == ["a"] && ["a"] + ["b"] == ["a", "b"];
    CleanTwo("a", "b");
    CleanOne(false, "a");
    ThroughDirs(m, root, p, 1);
  }

  lemma LossyStore() returns (m: BlobMap, root: ReadCap)
    ensures WellFormed(m, 6) && root.key < 6 && root in m && Resolve(m, root, ["a", "b", "b", "b"]).Some?
  {
    hide Entries, WellFormed;
    NothingStored(2);
    var m3 := Add(map[], 2, [Named("b", FileCap(1))]);
    AddedOne(map[], 2, Named("b", FileCap(1)));
    var m4 := Add(m3, 3, [Named("b", DirCap(2))]);
    AddedOne(m3, 3, Named("b", DirCap(2)));
    var m5 := Add(m4, 4, [Named("b", DirCap(3))]);
    AddedOne(m4, 4, Named("b", DirCap(3)));
    m, root := Add(m5, 5, [Named("a", DirCap(4))]), DirCap(5);
    AddedOne(m5, 5, Named("a", DirCap(4)));
    var p: Path := ["a", "b", "b", "b"];
    assert p[1..] == ["b", "b", "b"] && p[1..][1..] == ["b", "b"] && p[1..][1..][1..] == ["b"];
    assert Resolve(m, DirCap(4), ["b", "b", "b"]) == Resolve(m, DirCap(3), ["b", "b"]) == Resolve(m, DirCap(2), ["b"]) == Some(FileCap(1));
  }
}
