/**
 * `do_dump` (src/main.c): resolve the root-inode override and the `-1` end
 * sentinels against the mounted filesystem, then run the requested dumps in
 * a fixed order and always print the checkpoint state last.
 *
 * The dump routines themselves are not part of this model; each call is an
 * `Action` value carrying the arguments it is given.
 */
module DoDump {
  import opened Wrappers
  import opened DumpOptions

  /** What `do_dump` reads from the mounted filesystem. */
  datatype Geometry = Geometry(rootIno: nat, maxNid: nat, mainSegments: nat)

  /** The dump routines `do_dump` calls, with their arguments. */
  datatype Action =
    | NatDump(start: int, end: int)                                  // nat_dump
    | SitDump(start: int, end: int)                                  // sit_dump
    | SsaDump(start: int, end: int)                                  // ssa_dump
    | BlockDump(blkAddr: int)                                        // dump_info_from_blkaddr
    | NodeDump(nid: int, force: bool, basePath: Option<string>)      // dump_node
    | ScanDisk(nid: int)                                             // dump_node_scan_disk
    | PrintCpState(flag: int)                                        // print_cp_state

  /** The position of each kind of call in `do_dump`. */
  function Stage(a: Action): nat {
    match a
    case NatDump(_, _) => 0
    case SitDump(_, _) => 1
    case SsaDump(_, _) => 2
    case BlockDump(_) => 3
    case NodeDump(_, _, _) => 4
    case ScanDisk(_) => 5
    case PrintCpState(_) => 6
  }

  /** The rewrites at the top of `do_dump`. */
  function Resolve(o: DumpOpts, g: Geometry): DumpOpts {
    o.(nid := if o.useRootNid then g.rootIno else o.nid,
       endNat := if o.endNat == -1 then g.maxNid else o.endNat,
       endSit := if o.endSit == -1 then g.mainSegments else o.endSit,
       endSsa := if o.endSsa == -1 then g.mainSegments else o.endSsa)
  }

  /** The test `do_dump` makes before call `a`; the checkpoint state is unconditional. */
  predicate Gated(o: DumpOpts, a: Action) {
    match a
    case NatDump(_, _) => o.startNat != -1
    case SitDump(_, _) => o.startSit != -1
    case SsaDump(_, _) => o.startSsa != -1
    case BlockDump(_) => o.blkAddr != -1
    case NodeDump(_, _, _) => o.nid != 0
    case ScanDisk(_) => o.scanNid != 0
    case PrintCpState(_) => true
  }

  /** Every call `do_dump` can make for record `o`, in the order of the source. */
  function Candidates(o: DumpOpts, force: bool, flag: int): seq<Action> {
    [NatDump(o.startNat, o.endNat), SitDump(o.startSit, o.endSit), SsaDump(o.startSsa, o.endSsa),
     BlockDump(o.blkAddr), NodeDump(o.nid, force, o.basePath), ScanDisk(o.scanNid), PrintCpState(flag)]
  }

  /** The one-call list `[a]` when `gate` holds, and nothing otherwise. */
  function When(gate: bool, a: Action): seq<Action> {
    if gate then [a] else []
  }

  /** The elements of `s` whose gate holds, in order. */
  function Keep(o: DumpOpts, s: seq<Action>): seq<Action>
    decreases |s|
  {
    if s == [] then [] else Keep(o, s[..|s| - 1]) + When(Gated(o, s[|s| - 1]), s[|s| - 1])
  }

  /** A call is kept exactly when it is listed and its gate holds. */
  lemma {:induction false} KeepMembers(o: DumpOpts, s: seq<Action>)
    ensures forall a :: a in Keep(o, s) <==> a in s && Gated(o, a)
    decreases |s|
  {
    if s != [] {
      KeepMembers(o, s[..|s| - 1]);
      assert s == s[..|s| - 1] + [s[|s| - 1]];
    }
  }

  /** `s` lists its calls in strictly increasing stage order, all below stage `hi`. */
  predicate Below(s: seq<Action>, hi: nat)
    decreases |s|
  {
    s == [] || (Stage(s[|s| - 1]) < hi && Below(s[..|s| - 1], Stage(s[|s| - 1])))
  }

  lemma BelowWeaken(s: seq<Action>, lo: nat, hi: nat)
    requires lo <= hi && Below(s, lo)
    ensures Below(s, hi)
  {
  }

  /** Dropping calls keeps the order. */
  lemma {:induction false} KeepBelow(o: DumpOpts, s: seq<Action>, hi: nat)
    requires Below(s, hi)
    ensures Below(Keep(o, s), hi)
    decreases |s|
  {
    if s != [] {
      var init, x := s[..|s| - 1], s[|s| - 1];
      KeepBelow(o, init, Stage(x));
      if Gated(o, x) {
        var k := Keep(o, init) + [x];
        assert k[..|k| - 1] == Keep(o, init);
      } else {
        assert Keep(o, s) == Keep(o, init);
        BelowWeaken(Keep(o, init), Stage(x), hi);
      }
    }
  }

  /** In an ordered list, a call's stage is below that of every later call. */
  lemma {:induction false} BelowPairwise(s: seq<Action>, hi: nat)
    requires Below(s, hi)
    ensures forall i :: 0 <= i < |s| ==> Stage(s[i]) < hi
    ensures forall i, j :: 0 <= i < j < |s| ==> Stage(s[i]) < Stage(s[j])
    decreases |s|
  {
    if s != [] {
      BelowPairwise(s[..|s| - 1], Stage(s[|s| - 1]));
    }
  }

  /** The candidates are listed in stage order. */
  lemma CandidatesBelow(o: DumpOpts, force: bool, flag: int)
    ensures Below(Candidates(o, force, flag), 7)
  {
    var s := Candidates(o, force, flag);
    assert Below(s[..1], 1) by { assert s[..1][..0] == []; }
    assert Below(s[..2], 2) by { assert s[..2][..1] == s[..1]; }
    assert Below(s[..3], 3) by { assert s[..3][..2] == s[..2]; }
    assert Below(s[..4], 4) by { assert s[..4][..3] == s[..3]; }
    assert Below(s[..5], 5) by { assert s[..5][..4] == s[..4]; }
    assert Below(s[..6], 6) by { assert s[..6][..5] == s[..5]; }
    assert s[..6] == s[..|s| - 1];
  }

  /** The outcome of each gated `if` of `do_dump`, in the order of the source. */
  function Stages(o: DumpOpts, force: bool): seq<seq<Action>> {
    [When(o.startNat != -1, NatDump(o.startNat, o.endNat)),
     When(o.startSit != -1, SitDump(o.startSit, o.endSit)),
     When(o.startSsa != -1, SsaDump(o.startSsa, o.endSsa)),
     When(o.blkAddr != -1, BlockDump(o.blkAddr)),
     When(o.nid != 0, NodeDump(o.nid, force, o.basePath)),
     When(o.scanNid != 0, ScanDisk(o.scanNid))]
  }

  /**
   * The calls `do_dump` makes for an already resolved record: each gated
   * call in turn, then the checkpoint state unconditionally.
   */
  function Dispatch(o: DumpOpts, force: bool, flag: int): seq<Action> {
    var w := Stages(o, force);
    w[0] + w[1] + w[2] + w[3] + w[4] + w[5] + [PrintCpState(flag)]
  }

  /** The calls made are the candidates whose gate holds, in the order of the source. */
  lemma DispatchIsKeep(o: DumpOpts, force: bool, flag: int)
    ensures Dispatch(o, force, flag) == Keep(o, Candidates(o, force, flag))
  {
    var s := Candidates(o, force, flag);
    var w := Stages(o, force);
    assert Keep(o, s[..1]) == w[0] by { assert s[..1][..0] == []; }
    assert Keep(o, s[..2]) == w[0] + w[1] by { assert s[..2][..1] == s[..1]; }
    assert Keep(o, s[..3]) == w[0] + w[1] + w[2] by { assert s[..3][..2] == s[..2]; }
    assert Keep(o, s[..4]) == w[0] + w[1] + w[2] + w[3] by { assert s[..4][..3] == s[..3]; }
    assert Keep(o, s[..5]) == w[0] + w[1] + w[2] + w[3] + w[4] by { assert s[..5][..4] == s[..4]; }
    assert Keep(o, s[..6]) == w[0] + w[1] + w[2] + w[3] + w[4] + w[5] by { assert s[..6][..5] == s[..5]; }
    assert s[..6] == s[..|s| - 1];
  }

  /** The calls come in the order of the source, so none is made twice. */
  lemma DispatchOrdered(o: DumpOpts, force: bool, flag: int)
    ensures var r := Dispatch(o, force, flag);
            forall i, j :: 0 <= i < j < |r| ==> Stage(r[i]) < Stage(r[j])
  {
    DispatchIsKeep(o, force, flag);
    CandidatesBelow(o, force, flag);
    KeepBelow(o, Candidates(o, force, flag), 7);
    BelowPairwise(Dispatch(o, force, flag), 7);
  }

  /** The checkpoint state is always printed, and printed last. */
  lemma DispatchEndsWithCheckpoint(o: DumpOpts, force: bool, flag: int)
    ensures var r := Dispatch(o, force, flag);
            |r| > 0 && r[|r| - 1] == PrintCpState(flag)
  {
  }

  /**
   * Each gated call is made, with the record's values, exactly when its gate
   * holds; the checkpoint state always is; and nothing else is called.
   */
  lemma DispatchMembers(o: DumpOpts, force: bool, flag: int)
    ensures var r := Dispatch(o, force, flag);
            && (NatDump(o.startNat, o.endNat) in r <==> o.startNat != -1)
            && (SitDump(o.startSit, o.endSit) in r <==> o.startSit != -1)
            && (SsaDump(o.startSsa, o.endSsa) in r <==> o.startSsa != -1)
            && (BlockDump(o.blkAddr) in r <==> o.blkAddr != -1)
            && (NodeDump(o.nid, force, o.basePath) in r <==> o.nid != 0)
            && (ScanDisk(o.scanNid) in r <==> o.scanNid != 0)
            && PrintCpState(flag) in r
            && forall a :: a in r ==> a in Candidates(o, force, flag) && Gated(o, a)
  {
    DispatchIsKeep(o, force, flag);
    var s := Candidates(o, force, flag);
    KeepMembers(o, s);
    assert s[0] == NatDump(o.startNat, o.endNat) && s[1] == SitDump(o.startSit, o.endSit);
    assert s[2] == SsaDump(o.startSsa, o.endSsa) && s[3] == BlockDump(o.blkAddr);
    assert s[4] == NodeDump(o.nid, force, o.basePath) && s[5] == ScanDisk(o.scanNid) && s[6] == PrintCpState(flag);
  }

  /**
   * An end of -1 becomes the table's bound (`max_nid` for the NAT,
   * `main_segments` for the SIT and the SSA); any other end stays; the starts,
   * the block address, the scan nid and the output path never change.
   */
  lemma ResolveEnds(o: DumpOpts, g: Geometry)
    ensures var r := Resolve(o, g);
            && (o.endNat == -1 ==> r.endNat == g.maxNid) && (o.endNat != -1 ==> r.endNat == o.endNat)
            && (o.endSit == -1 ==> r.endSit == g.mainSegments) && (o.endSit != -1 ==> r.endSit == o.endSit)
            && (o.endSsa == -1 ==> r.endSsa == g.mainSegments) && (o.endSsa != -1 ==> r.endSsa == o.endSsa)
            && r.startNat == o.startNat && r.startSit == o.startSit && r.startSsa == o.startSsa
            && r.blkAddr == o.blkAddr && r.scanNid == o.scanNid && r.basePath == o.basePath
            && r.useRootNid == o.useRootNid
  {
  }

  /** Resolving twice is resolving once: the bounds are never -1 and the root inode wins again. */
  lemma ResolveIdempotent(o: DumpOpts, g: Geometry)
    ensures Resolve(Resolve(o, g), g) == Resolve(o, g)
  {
  }

  /**
   * With `-r`, the node dumped is the root inode whatever `-i` said, and it
   * is dumped exactly when the root inode number is nonzero; without `-r`,
   * exactly when the `-i` value is nonzero.
   */
  lemma RootOverride(o: DumpOpts, g: Geometry, force: bool, flag: int)
    ensures var r := Dispatch(Resolve(o, g), force, flag);
            var n := if o.useRootNid then g.rootIno else o.nid;
            && (exists a :: a in r && a.NodeDump?) <==> n != 0
    ensures var r := Dispatch(Resolve(o, g), force, flag);
            forall a :: a in r && a.NodeDump? ==> a.nid == (if o.useRootNid then g.rootIno else o.nid)
  {
    var r := Dispatch(Resolve(o, g), force, flag);
    var ro := Resolve(o, g);
    DispatchMembers(ro, force, flag);
    if ro.nid != 0 {
      assert NodeDump(ro.nid, force, ro.basePath) in r;
    }
  }

  /** The full-disk scan runs exactly when `-I` gave a nonzero nid, with that nid. */
  lemma ScanDiskGate(o: DumpOpts, g: Geometry, force: bool, flag: int)
    ensures var r := Dispatch(Resolve(o, g), force, flag);
            (exists a :: a in r && a.ScanDisk?) <==> o.scanNid != 0
    ensures var r := Dispatch(Resolve(o, g), force, flag);
            forall a :: a in r && a.ScanDisk? ==> a.nid == o.scanNid
  {
    var r := Dispatch(Resolve(o, g), force, flag);
    DispatchMembers(Resolve(o, g), force, flag);
    if o.scanNid != 0 {
      assert ScanDisk(o.scanNid) in r;
    }
  }

  /** The table dumps with an open range (an end of -1) get the table's bound as their end. */
  lemma SentinelRangesReachBound(o: DumpOpts, g: Geometry, force: bool, flag: int)
    ensures var r := Dispatch(Resolve(o, g), force, flag);
            && (o.startNat != -1 && o.endNat == -1 ==> NatDump(o.startNat, g.maxNid) in r)
            && (o.startSit != -1 && o.endSit == -1 ==> SitDump(o.startSit, g.mainSegments) in r)
            && (o.startSsa != -1 && o.endSsa == -1 ==> SsaDump(o.startSsa, g.mainSegments) in r)
  {
    DispatchMembers(Resolve(o, g), force, flag);
  }

  /** With the defaults and no option, only the checkpoint state is printed. */
  lemma DefaultsOnlyPrintCheckpoint(g: Geometry, force: bool, flag: int)
    ensures Dispatch(Resolve(Defaults, g), force, flag) == [PrintCpState(flag)]
  {
  }

  /** The rewrites at the top of `do_dump`, on the record in place. */
  method ResolveInPlace(opt: DumpOption, g: Geometry)
    modifies opt`nid, opt`endNat, opt`endSit, opt`endSsa
    ensures opt.Record() == Resolve(old(opt.Record()), g)
  {
    if opt.useRootNid {
      opt.nid := g.rootIno;
    }
    if opt.endNat == -1 {
      opt.endNat := g.maxNid;
    }
    if opt.endSit == -1 {
      opt.endSit := g.mainSegments;
    }
    if opt.endSsa == -1 {
      opt.endSsa := g.mainSegments;
    }
  }

  /** The gated calls of `do_dump`, made one after the other. */
  method MakeCalls(opt: DumpOption, c: Config, flag: int) returns (calls: seq<Action>)
    ensures calls == Dispatch(opt.Record(), c.force, flag)
  {
    // the stages of Dispatch, one per `if`
    ghost var w := Stages(opt.Record(), c.force);
    calls := [];
    if opt.startNat != -1 {
      calls := calls + [NatDump(opt.startNat, opt.endNat)];
    }
    assert calls == w[0];
    if opt.startSit != -1 {
      calls := calls + [SitDump(opt.startSit, opt.endSit)];
    }
    assert calls == w[0] + w[1];
    if opt.startSsa != -1 {
      calls := calls + [SsaDump(opt.startSsa, opt.endSsa)];
    }
    assert calls == w[0] + w[1] + w[2];
    if opt.blkAddr != -1 {
      calls := calls + [BlockDump(opt.blkAddr)];
    }
    assert calls == w[0] + w[1] + w[2] + w[3];
    if opt.nid != 0 {
      calls := calls + [NodeDump(opt.nid, c.force, opt.basePath)];
    }
    assert calls == w[0] + w[1] + w[2] + w[3] + w[4];
    if opt.scanNid != 0 {
      calls := calls + [ScanDisk(opt.scanNid)];
    }
    assert calls == w[0] + w[1] + w[2] + w[3] + w[4] + w[5];
    calls := calls + [PrintCpState(flag)];
  }

  /**
   * `do_dump` on the option record in place: rewrite the nid and the ends,
   * then make the calls in order.
   */
  method RunDump(opt: DumpOption, c: Config, g: Geometry, flag: int) returns (calls: seq<Action>)
    modifies opt`nid, opt`endNat, opt`endSit, opt`endSsa
    ensures opt.Record() == Resolve(old(opt.Record()), g)
    ensures calls == Dispatch(opt.Record(), c.force, flag)
  {
    ResolveInPlace(opt, g);
    calls := MakeCalls(opt, c, flag);
  }
}
