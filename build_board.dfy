/**
 * The legacy builder step `AddBuildBoardPropertyIfMissing`
 * (`legacy/builder/add_build_board_property_if_missing.go`): every board
 * of every release of every platform of every package that has no
 * `build.board` preference gets one, derived from the platform's
 * architecture and the board's id, and a warning is emitted for it.
 * Boards are objects whose property maps are updated in place; the
 * hardware maps are given as sequences in their iteration order.
 */
module BuildBoard {
  import opened Wrappers
  import opened Strings
  import opened PropertiesMap

  const BuildBoardKey := "build.board"

  /** A board of a platform release: its id and its mutable properties. */
  class Board {
    const boardId: string
    var properties: Props

    constructor(boardId: string, properties: Props)
      ensures this.boardId == boardId && this.properties == properties
    {
      this.boardId := boardId;
      this.properties := properties;
    }
  }

  datatype PlatformRelease = PlatformRelease(boards: seq<Board>)
  datatype Platform = Platform(architecture: string, releases: seq<PlatformRelease>)
  datatype Package = Package(name: string, platforms: seq<Platform>)

  /** The value given to a board that lacks `build.board`: `ARCH_BOARDID`, upper-cased. */
  function DefaultBuildBoard(architecture: string, boardId: string): (r: string)
    ensures |r| == |architecture| + 1 + |boardId|
    ensures forall k :: 0 <= k < |architecture| ==> r[k] == UpperChar(architecture[k])
    ensures r[|architecture|] == '_'
    ensures forall k :: 0 <= k < |boardId| ==> r[|architecture| + 1 + k] == UpperChar(boardId[k])
  {
    ToUpper(architecture + "_" + boardId)
  }

  /** The properties of one board after the step. */
  function Patch(props: Props, architecture: string, boardId: string): Props
  {
    if Get(props, BuildBoardKey) == "" then props[BuildBoardKey := DefaultBuildBoard(architecture, boardId)]
    else props
  }

  /**
   * After the step a board always has a non-empty `build.board`: the one
   * it had, or else the default derived from its architecture and id.
   */
  lemma PatchSetsBuildBoard(props: Props, architecture: string, boardId: string)
    ensures Get(Patch(props, architecture, boardId), BuildBoardKey) != ""
    ensures Get(props, BuildBoardKey) != "" ==> Patch(props, architecture, boardId) == props
    ensures Get(props, BuildBoardKey) == "" ==>
      Get(Patch(props, architecture, boardId), BuildBoardKey) == DefaultBuildBoard(architecture, boardId)
  {
  }

  /** No property other than `build.board` is added, removed or changed. */
  lemma PatchOnlyBuildBoard(props: Props, architecture: string, boardId: string, k: string)
    requires k != BuildBoardKey
    ensures k in Patch(props, architecture, boardId) <==> k in props
    ensures k in props ==> Patch(props, architecture, boardId)[k] == props[k]
  {
  }

  /** A second application of the step changes nothing, whatever names it is given. */
  lemma PatchIdempotent(props: Props, architecture: string, boardId: string, architecture': string, boardId': string)
    ensures Patch(Patch(props, architecture, boardId), architecture', boardId') == Patch(props, architecture, boardId)
  {
  }

  // ---- the order in which the loops visit the boards ----

  /** One iteration of the innermost loop: a board with its package's name and its platform's architecture. */
  datatype Visit = Visit(packageName: string, architecture: string, board: Board)

  /** The visits of the boards of one platform release. */
  function ReleaseVisits(packageName: string, architecture: string, boards: seq<Board>): (vs: seq<Visit>)
    ensures |vs| == |boards|
    ensures forall l :: 0 <= l < |boards| ==> vs[l] == Visit(packageName, architecture, boards[l])
  {
    seq(|boards|, l requires 0 <= l < |boards| => Visit(packageName, architecture, boards[l]))
  }

  /** How many boards the first `n` releases of a platform have. */
  function PlatformSize(platform: Platform, n: nat): nat
    requires n <= |platform.releases|
  {
    if n == 0 then 0 else PlatformSize(platform, n - 1) + |platform.releases[n - 1].boards|
  }

  /** The visits of the first `n` releases of a platform. */
  function PlatformVisits(packageName: string, platform: Platform, n: nat): (vs: seq<Visit>)
    requires n <= |platform.releases|
    ensures |vs| == PlatformSize(platform, n)
  {
    if n == 0 then []
    else PlatformVisits(packageName, platform, n - 1)
         + ReleaseVisits(packageName, platform.architecture, platform.releases[n - 1].boards)
  }

  /** How many boards the first `n` platforms of a package have. */
  function PackageSize(aPackage: Package, n: nat): nat
    requires n <= |aPackage.platforms|
  {
    if n == 0 then 0
    else PackageSize(aPackage, n - 1) + PlatformSize(aPackage.platforms[n - 1], |aPackage.platforms[n - 1].releases|)
  }

  /** The visits of the first `n` platforms of a package. */
  function PackageVisits(aPackage: Package, n: nat): (vs: seq<Visit>)
    requires n <= |aPackage.platforms|
    ensures |vs| == PackageSize(aPackage, n)
  {
    if n == 0 then []
    else PackageVisits(aPackage, n - 1)
         + PlatformVisits(aPackage.name, aPackage.platforms[n - 1], |aPackage.platforms[n - 1].releases|)
  }

  /** How many boards the first `n` packages have. */
  function HardwareSize(hardware: seq<Package>, n: nat): nat
    requires n <= |hardware|
  {
    if n == 0 then 0 else HardwareSize(hardware, n - 1) + PackageSize(hardware[n - 1], |hardware[n - 1].platforms|)
  }

  /** The visits of the first `n` packages. */
  function HardwareVisits(hardware: seq<Package>, n: nat): (vs: seq<Visit>)
    requires n <= |hardware|
    ensures |vs| == HardwareSize(hardware, n)
  {
    if n == 0 then []
    else HardwareVisits(hardware, n - 1) + PackageVisits(hardware[n - 1], |hardware[n - 1].platforms|)
  }

  /** The boards of one release sit in `vs` from index `d` on. */
  ghost predicate ReleaseLaid(vs: seq<Visit>, d: nat, packageName: string, architecture: string, boards: seq<Board>)
  {
    d + |boards| <= |vs| && forall l :: 0 <= l < |boards| ==> vs[d + l] == Visit(packageName, architecture, boards[l])
  }

  /** The boards of the first `n` releases of a platform sit in `vs` from index `d` on, release after release. */
  ghost predicate PlatformLaid(vs: seq<Visit>, d: nat, packageName: string, platform: Platform, n: nat)
    requires n <= |platform.releases|
  {
    n == 0 ||
    (PlatformLaid(vs, d, packageName, platform, n - 1) &&
     ReleaseLaid(vs, d + PlatformSize(platform, n - 1), packageName, platform.architecture, platform.releases[n - 1].boards))
  }

  /** The boards of the first `n` platforms of a package sit in `vs` from index `d` on, platform after platform. */
  ghost predicate PackageLaid(vs: seq<Visit>, d: nat, aPackage: Package, n: nat)
    requires n <= |aPackage.platforms|
  {
    n == 0 ||
    (PackageLaid(vs, d, aPackage, n - 1) &&
     PlatformLaid(vs, d + PackageSize(aPackage, n - 1), aPackage.name, aPackage.platforms[n - 1], |aPackage.platforms[n - 1].releases|))
  }

  /** The boards of the first `n` packages sit in `vs`, package after package. */
  ghost predicate HardwareLaid(vs: seq<Visit>, hardware: seq<Package>, n: nat)
    requires n <= |hardware|
  {
    n == 0 ||
    (HardwareLaid(vs, hardware, n - 1) &&
     PackageLaid(vs, HardwareSize(hardware, n - 1), hardware[n - 1], |hardware[n - 1].platforms|))
  }

  lemma {:induction false} PlatformLaidAt(vs: seq<Visit>, d: nat, packageName: string, platform: Platform, n: nat, k: nat)
    requires k < n <= |platform.releases| && PlatformLaid(vs, d, packageName, platform, n)
    ensures ReleaseLaid(vs, d + PlatformSize(platform, k), packageName, platform.architecture, platform.releases[k].boards)
  {
    if k < n - 1 {
      PlatformLaidAt(vs, d, packageName, platform, n - 1, k);
    }
  }

  lemma {:induction false} PackageLaidAt(vs: seq<Visit>, d: nat, aPackage: Package, n: nat, j: nat)
    requires j < n <= |aPackage.platforms| && PackageLaid(vs, d, aPackage, n)
    ensures PlatformLaid(vs, d + PackageSize(aPackage, j), aPackage.name, aPackage.platforms[j], |aPackage.platforms[j].releases|)
  {
    if j < n - 1 {
      PackageLaidAt(vs, d, aPackage, n - 1, j);
    }
  }

  lemma {:induction false} HardwareLaidAt(vs: seq<Visit>, hardware: seq<Package>, n: nat, i: nat)
    requires i < n <= |hardware| && HardwareLaid(vs, hardware, n)
    ensures PackageLaid(vs, HardwareSize(hardware, i), hardware[i], |hardware[i].platforms|)
  {
    if i < n - 1 {
      HardwareLaidAt(vs, hardware, n - 1, i);
    }
  }

  // Layouts survive embedding the visits in a longer sequence.

  /** An element of `vs` keeps its place, shifted by `|before|`, in `before + vs + after`. */
  lemma EmbedIndex(before: seq<Visit>, vs: seq<Visit>, after: seq<Visit>, x: nat)
    requires x < |vs|
    ensures |before| + x < |before + vs + after| && (before + vs + after)[|before| + x] == vs[x]
  {
  }

  lemma ReleaseLaidEmbed(before: seq<Visit>, vs: seq<Visit>, after: seq<Visit>, d: nat,
                         packageName: string, architecture: string, boards: seq<Board>)
    requires ReleaseLaid(vs, d, packageName, architecture, boards)
    ensures ReleaseLaid(before + vs + after, |before| + d, packageName, architecture, boards)
  {
    var whole := before + vs + after;
    forall l | 0 <= l < |boards|
      ensures whole[|before| + d + l] == Visit(packageName, architecture, boards[l])
    {
      var board := boards[l];
      assert vs[d + l] == Visit(packageName, architecture, board);
      EmbedIndex(before, vs, after, d + l);
    }
  }

  lemma {:induction false} PlatformLaidEmbed(before: seq<Visit>, vs: seq<Visit>, after: seq<Visit>, d: nat,
                                             packageName: string, platform: Platform, n: nat)
    requires n <= |platform.releases| && PlatformLaid(vs, d, packageName, platform, n)
    ensures PlatformLaid(before + vs + after, |before| + d, packageName, platform, n)
  {
    if n > 0 {
      PlatformLaidEmbed(before, vs, after, d, packageName, platform, n - 1);
      ReleaseLaidEmbed(before, vs, after, d + PlatformSize(platform, n - 1),
                       packageName, platform.architecture, platform.releases[n - 1].boards);
    }
  }

  lemma {:induction false} PackageLaidEmbed(before: seq<Visit>, vs: seq<Visit>, after: seq<Visit>, d: nat,
                                            aPackage: Package, n: nat)
    requires n <= |aPackage.platforms| && PackageLaid(vs, d, aPackage, n)
    ensures PackageLaid(before + vs + after, |before| + d, aPackage, n)
  {
    if n > 0 {
      PackageLaidEmbed(before, vs, after, d, aPackage, n - 1);
      PlatformLaidEmbed(before, vs, after, d + PackageSize(aPackage, n - 1),
                        aPackage.name, aPackage.platforms[n - 1], |aPackage.platforms[n - 1].releases|);
    }
  }

  lemma {:induction false} HardwareLaidExtend(vs: seq<Visit>, after: seq<Visit>, hardware: seq<Package>, n: nat)
    requires n <= |hardware| && HardwareLaid(vs, hardware, n)
    ensures HardwareLaid(vs + after, hardware, n)
  {
    if n > 0 {
      HardwareLaidExtend(vs, after, hardware, n - 1);
      assert [] + vs + after == vs + after;
      PackageLaidEmbed([], vs, after, HardwareSize(hardware, n - 1), hardware[n - 1], |hardware[n - 1].platforms|);
    }
  }

  // Each level of the visiting order lays its boards out as the loops reach them.

  lemma {:induction false} PlatformVisitsLaid(packageName: string, platform: Platform, n: nat)
    requires n <= |platform.releases|
    ensures PlatformLaid(PlatformVisits(packageName, platform, n), 0, packageName, platform, n)
  {
    if n > 0 {
      var front := PlatformVisits(packageName, platform, n - 1);
      var last := ReleaseVisits(packageName, platform.architecture, platform.releases[n - 1].boards);
      assert PlatformVisits(packageName, platform, n) == [] + front + last == front + last + [];
      PlatformVisitsLaid(packageName, platform, n - 1);
      PlatformLaidEmbed([], front, last, 0, packageName, platform, n - 1);
      ReleaseLaidEmbed(front, last, [], 0, packageName, platform.architecture, platform.releases[n - 1].boards);
    }
  }

  lemma {:induction false} PackageVisitsLaid(aPackage: Package, n: nat)
    requires n <= |aPackage.platforms|
    ensures PackageLaid(PackageVisits(aPackage, n), 0, aPackage, n)
  {
    if n > 0 {
      var platform := aPackage.platforms[n - 1];
      var front := PackageVisits(aPackage, n - 1);
      var last := PlatformVisits(aPackage.name, platform, |platform.releases|);
      assert PackageVisits(aPackage, n) == [] + front + last == front + last + [];
      PackageVisitsLaid(aPackage, n - 1);
      PackageLaidEmbed([], front, last, 0, aPackage, n - 1);
      PlatformVisitsLaid(aPackage.name, platform, |platform.releases|);
      PlatformLaidEmbed(front, last, [], 0, aPackage.name, platform, |platform.releases|);
    }
  }

  lemma {:induction false} HardwareVisitsLaid(hardware: seq<Package>, n: nat)
    requires n <= |hardware|
    ensures HardwareLaid(HardwareVisits(hardware, n), hardware, n)
  {
    if n > 0 {
      var aPackage := hardware[n - 1];
      var front := HardwareVisits(hardware, n - 1);
      var last := PackageVisits(aPackage, |aPackage.platforms|);
      assert HardwareVisits(hardware, n) == front + last == front + last + [];
      HardwareVisitsLaid(hardware, n - 1);
      HardwareLaidExtend(front, last, hardware, n - 1);
      PackageVisitsLaid(aPackage, |aPackage.platforms|);
      PackageLaidEmbed(front, last, [], 0, aPackage, |aPackage.platforms|);
    }
  }

  /** Every board of the hardware, in the order the four loops reach it. */
  function Visits(hardware: seq<Package>): seq<Visit>
  {
    HardwareVisits(hardware, |hardware|)
  }

  /** No board object is reached twice. */
  predicate Distinct(vs: seq<Visit>)
  {
    forall a, b :: 0 <= a < b < |vs| ==> vs[a].board != vs[b].board
  }

  function BoardSet(vs: seq<Visit>): set<Board>
  {
    set v | 0 <= v < |vs| :: vs[v].board
  }

  /** The properties of the visited boards, in visiting order. */
  function PropsOf(vs: seq<Visit>): (ps: seq<Props>)
    reads BoardSet(vs)
    ensures |ps| == |vs| && forall v :: 0 <= v < |vs| ==> ps[v] == vs[v].board.properties
  {
    if vs == [] then []
    else
      assert vs[0].board in BoardSet(vs);
      assert forall v :: 0 <= v < |vs[1..]| ==> vs[1..][v].board in BoardSet(vs) by {
        forall v | 0 <= v < |vs[1..]| ensures vs[1..][v].board in BoardSet(vs) {
          assert vs[1..][v] == vs[v + 1];
        }
      }
      [vs[0].board.properties] + PropsOf(vs[1..])
  }

  // ---- warnings ----

  /** The information emitted for a patched board: where the board is. */
  datatype Warning = Warning(packageName: string, architecture: string, boardId: string)

  /**
   * The text of the warning, naming the board as `package:arch:id` and
   * the value it was given.
   */
  function Message(w: Warning): string
  {
    "Warning: Board " + w.packageName + ":" + w.architecture + ":" + w.boardId
    + " doesn't define a 'build.board' preference. Auto-set to: " + DefaultBuildBoard(w.architecture, w.boardId)
  }

  /** The warning of visit `v` when its board started with properties `before`, if any. */
  function WarningFor(v: Visit, before: Props): seq<Warning>
  {
    if Get(before, BuildBoardKey) == "" then
      [Warning(v.packageName, v.architecture, v.board.boardId)]
    else []
  }

  /** The warnings of visits `lo` up to `hi`, in order. */
  function Warned(vs: seq<Visit>, olds: seq<Props>, lo: nat, hi: nat): seq<Warning>
    requires lo <= hi <= |vs| == |olds|
    decreases hi
  {
    if hi == lo then [] else Warned(vs, olds, lo, hi - 1) + WarningFor(vs[hi - 1], olds[hi - 1])
  }

  /** The set of visits among `lo` up to `hi` whose board had no `build.board`. */
  function Missing(olds: seq<Props>, lo: nat, hi: nat): set<nat>
    requires lo <= hi <= |olds|
  {
    set v: nat | lo <= v < hi && Get(olds[v], BuildBoardKey) == ""
  }

  /** Exactly one warning per patched board. */
  lemma {:induction false} WarnedCount(vs: seq<Visit>, olds: seq<Props>, lo: nat, hi: nat)
    requires lo <= hi <= |vs| == |olds|
    ensures |Warned(vs, olds, lo, hi)| == |Missing(olds, lo, hi)|
    decreases hi
  {
    if hi > lo {
      WarnedCount(vs, olds, lo, hi - 1);
      var v := hi - 1;
      assert Warned(vs, olds, lo, hi) == Warned(vs, olds, lo, hi - 1) + WarningFor(vs[v], olds[v]);
      if Get(olds[v], BuildBoardKey) == "" {
        assert Missing(olds, lo, hi) == Missing(olds, lo, hi - 1) + {v};
      } else {
        assert Missing(olds, lo, hi) == Missing(olds, lo, hi - 1);
      }
    } else {
      assert Missing(olds, lo, hi) == {};
    }
  }

  /** `w` is the warning of visit `v`, whose board started with properties `before` lacking `build.board`. */
  predicate WarnsAbout(w: Warning, v: Visit, before: Props)
  {
    Get(before, BuildBoardKey) == "" && w == Warning(v.packageName, v.architecture, v.board.boardId)
  }

  /**
   * The message of a board's warning announces the board as
   * `package:arch:id` and the value the board now holds.
   */
  lemma WarningMessage(w: Warning, v: Visit, before: Props)
    requires WarnsAbout(w, v, before)
    ensures Message(w) == "Warning: Board " + v.packageName + ":" + v.architecture + ":" + v.board.boardId
                          + " doesn't define a 'build.board' preference. Auto-set to: "
                          + Get(Patch(before, v.architecture, v.board.boardId), BuildBoardKey)
  {
  }

  /**
   * Every warning is that of a visited board that lacked `build.board`,
   * and every such board is warned about.
   */
  lemma {:induction false} WarnedAnnounces(vs: seq<Visit>, olds: seq<Props>, lo: nat, hi: nat)
    requires lo <= hi <= |vs| == |olds|
    ensures forall w :: w in Warned(vs, olds, lo, hi) ==> exists v :: lo <= v < hi && WarnsAbout(w, vs[v], olds[v])
    ensures forall v :: lo <= v < hi && Get(olds[v], BuildBoardKey) == "" ==>
      Warning(vs[v].packageName, vs[v].architecture, vs[v].board.boardId) in Warned(vs, olds, lo, hi)
    decreases hi
  {
    if hi > lo {
      WarnedAnnounces(vs, olds, lo, hi - 1);
      var last := WarningFor(vs[hi - 1], olds[hi - 1]);
      assert Warned(vs, olds, lo, hi) == Warned(vs, olds, lo, hi - 1) + last;
      assert forall w :: w in last ==> WarnsAbout(w, vs[hi - 1], olds[hi - 1]);
    }
  }

  /** Boards that all have a `build.board` produce no warning: a second run is silent. */
  lemma {:induction false} NoWarningWhenAllSet(vs: seq<Visit>, olds: seq<Props>, lo: nat, hi: nat)
    requires lo <= hi <= |vs| == |olds|
    requires forall v :: lo <= v < hi ==> Get(olds[v], BuildBoardKey) != ""
    ensures Warned(vs, olds, lo, hi) == []
    decreases hi
  {
    if hi > lo {
      NoWarningWhenAllSet(vs, olds, lo, hi - 1);
    }
  }

  // ---- the step ----

  /** The first `n` visits are patched and the rest still hold their properties `olds`. */
  ghost predicate Done(vs: seq<Visit>, olds: seq<Props>, n: nat)
    requires |olds| == |vs|
    reads *
  {
    forall v {:trigger vs[v].board.properties} :: 0 <= v < |vs| ==>
      vs[v].board.properties == if v < n then Patch(olds[v], vs[v].architecture, vs[v].board.boardId) else olds[v]
  }

  /** `position` gives the index of every visited board, so no board is visited twice. */
  ghost predicate Positioned(vs: seq<Visit>, position: map<Board, nat>)
  {
    forall v :: 0 <= v < |vs| ==> vs[v].board in position && position[vs[v].board] == v
  }

  /** Distinct boards have a position map. */
  lemma DistinctPositioned(vs: seq<Visit>) returns (position: map<Board, nat>)
    requires Distinct(vs)
    ensures Positioned(vs, position) && position.Keys == BoardSet(vs)
  {
    position := map v | 0 <= v < |vs| :: vs[v].board := v;
  }

  /** The first `n` visits are done and `warnings` are their warnings. */
  ghost predicate Progress(vs: seq<Visit>, olds: seq<Props>, n: nat, warnings: seq<Warning>)
    reads *
  {
    n <= |vs| == |olds| && Done(vs, olds, n) && warnings == Warned(vs, olds, 0, n)
  }

  /** The body of the innermost loop: one board. */
  method PatchBoard(packageName: string, architecture: string, board: Board,
                    ghost vs: seq<Visit>, ghost position: map<Board, nat>, ghost olds: seq<Props>,
                    ghost d: nat, warnings: seq<Warning>)
    returns (warnings': seq<Warning>)
    requires d < |vs| == |olds| && Positioned(vs, position) && vs[d] == Visit(packageName, architecture, board)
    requires Progress(vs, olds, d, warnings)
    modifies position.Keys
    ensures Progress(vs, olds, d + 1, warnings')
  {
    warnings' := warnings;
    ghost var before := board.properties;
    assert before == olds[d];
    if Get(board.properties, BuildBoardKey) == "" {
      board.properties := board.properties[BuildBoardKey := ToUpper(architecture + "_" + board.boardId)];
      warnings' := warnings' + [Warning(packageName, architecture, board.boardId)];
    }
    assert board.properties == Patch(before, architecture, board.boardId);
    assert warnings' == Warned(vs, olds, 0, d) + WarningFor(vs[d], before);
    forall v | 0 <= v < |vs|
      ensures vs[v].board.properties == if v < d + 1 then Patch(olds[v], vs[v].architecture, vs[v].board.boardId) else olds[v]
    {
      if v != d {
        assert position[vs[v].board] != position[board];
      }
    }
  }

  /** The innermost loop: the boards of one platform release. */
  method PatchRelease(packageName: string, architecture: string, boards: seq<Board>,
                      ghost vs: seq<Visit>, ghost position: map<Board, nat>, ghost olds: seq<Props>, ghost d: nat, warnings: seq<Warning>)
    returns (warnings': seq<Warning>)
    requires |vs| == |olds| && Positioned(vs, position)
    requires ReleaseLaid(vs, d, packageName, architecture, boards)
    requires Progress(vs, olds, d, warnings)
    modifies position.Keys
    ensures Progress(vs, olds, d + |boards|, warnings')
  {
    warnings' := warnings;
    ghost var e := d;
    for l := 0 to |boards|
      invariant e == d + l && Progress(vs, olds, e, warnings')
    {
      var board := boards[l];
      warnings' := PatchBoard(packageName, architecture, board, vs, position, olds, e, warnings');
      e := e + 1;
    }
  }

  /** The loop over the releases of one platform. */
  method PatchPlatform(packageName: string, platform: Platform,
                       ghost vs: seq<Visit>, ghost position: map<Board, nat>, ghost olds: seq<Props>, ghost d: nat, warnings: seq<Warning>)
    returns (warnings': seq<Warning>)
    requires |vs| == |olds| && Positioned(vs, position)
    requires PlatformLaid(vs, d, packageName, platform, |platform.releases|)
    requires Progress(vs, olds, d, warnings)
    modifies position.Keys
    ensures Progress(vs, olds, d + PlatformSize(platform, |platform.releases|), warnings')
  {
    warnings' := warnings;
    ghost var e := d;
    for k := 0 to |platform.releases|
      invariant e == d + PlatformSize(platform, k) && Progress(vs, olds, e, warnings')
    {
      var boards := platform.releases[k].boards;
      PlatformLaidAt(vs, d, packageName, platform, |platform.releases|, k);
      warnings' := PatchRelease(packageName, platform.architecture, boards, vs, position, olds, e, warnings');
      e := e + |boards|;
    }
  }

  /** The loop over the platforms of one package. */
  method PatchPackage(aPackage: Package,
                      ghost vs: seq<Visit>, ghost position: map<Board, nat>, ghost olds: seq<Props>, ghost d: nat, warnings: seq<Warning>)
    returns (warnings': seq<Warning>)
    requires |vs| == |olds| && Positioned(vs, position)
    requires PackageLaid(vs, d, aPackage, |aPackage.platforms|)
    requires Progress(vs, olds, d, warnings)
    modifies position.Keys
    ensures Progress(vs, olds, d + PackageSize(aPackage, |aPackage.platforms|), warnings')
  {
    warnings' := warnings;
    ghost var e := d;
    for j := 0 to |aPackage.platforms|
      invariant e == d + PackageSize(aPackage, j) && Progress(vs, olds, e, warnings')
    {
      var platform := aPackage.platforms[j];
      PackageLaidAt(vs, d, aPackage, |aPackage.platforms|, j);
      warnings' := PatchPlatform(aPackage.name, platform, vs, position, olds, e, warnings');
      e := e + PlatformSize(platform, |platform.releases|);
    }
  }

  /** The outermost loop, over the packages. */
  method PatchHardware(hardware: seq<Package>,
                       ghost vs: seq<Visit>, ghost position: map<Board, nat>, ghost olds: seq<Props>)
    returns (warnings: seq<Warning>)
    requires |vs| == |olds| && Positioned(vs, position)
    requires |vs| == HardwareSize(hardware, |hardware|) && HardwareLaid(vs, hardware, |hardware|)
    requires Progress(vs, olds, 0, [])
    modifies position.Keys
    ensures Progress(vs, olds, |vs|, warnings)
  {
    warnings := [];
    ghost var e := 0;
    for i := 0 to |hardware|
      invariant e == HardwareSize(hardware, i) && Progress(vs, olds, e, warnings)
    {
      var aPackage := hardware[i];
      HardwareLaidAt(vs, hardware, |hardware|, i);
      warnings := PatchPackage(aPackage, vs, position, olds, e, warnings);
      e := e + PackageSize(aPackage, |aPackage.platforms|);
    }
  }

  /**
   * `AddBuildBoardPropertyIfMissing.Run`: each board that lacks
   * `build.board` is given the default value, with one warning; every
   * other board and every other property is left as it was.  The step
   * never fails.
   */
  method Run(hardware: seq<Package>) returns (warnings: seq<Warning>, err: Option<string>)
    requires Distinct(Visits(hardware))
    modifies BoardSet(Visits(hardware))
    ensures err == None
    ensures forall v :: 0 <= v < |Visits(hardware)| ==>
      Visits(hardware)[v].board.properties
        == Patch(old(Visits(hardware)[v].board.properties), Visits(hardware)[v].architecture, Visits(hardware)[v].board.boardId)
    ensures warnings == Warned(Visits(hardware), old(PropsOf(Visits(hardware))), 0, |Visits(hardware)|)
  {
    ghost var vs := Visits(hardware);
    ghost var olds := PropsOf(vs);
    ghost var position := DistinctPositioned(vs);
    HardwareVisitsLaid(hardware, |hardware|);
    warnings := PatchHardware(hardware, vs, position, olds);
    return warnings, None;
  }
}
