/** Memory for parameter blocks: when there is room for one, and that a process tree has to make very many
    cores before there is none. */
module BlockMemory {
  import opened Words
  import opened Paging
  import opened LoongArch
  import opened Trampoline
  import opened Clone
  import opened Dune
  import opened Runs
  import opened Resources
  import N = Native

  /** Blocks that lie side by side from address 0 on. */
  const BLOCKS: int := SLOT_SIZE / 64

  lemma {:induction false} FewImages(keys: set<Word>, lines: set<nat>)
    requires forall k | k in lines :: exists a :: a in keys && a / 64 == k
    ensures |lines| <= |keys|
    decreases keys
  {
    if keys != {} {
      var a :| a in keys;
      var rest := lines - {a / 64};
      forall k | k in rest ensures exists b :: b in keys - {a} && b / 64 == k {
        var b :| b in keys && b / 64 == k;
        assert b in keys - {a};
      }
      FewImages(keys - {a}, rest);
      assert |rest| >= |lines| - 1;
    } else {
      assert forall k | k in lines :: false;
    }
  }

  lemma CellsOfBlock(k: nat, i: nat)
    requires k < BLOCKS && i < PARAMETERS
    ensures Cell(64 * k, i) == 64 * k + 8 * i && Cell(64 * k, i) / 64 == k
  {
    Quotient(k, 64, 8 * i);
  }

  /** If fewer cells are in use than the slot has room for blocks, one is available. */
  lemma RoomForABlock(m: Mem)
    requires |m| < BLOCKS
    ensures BlockAvailable(m)
  {
    var lines := set a | a in m.Keys :: a / 64;
    assert forall a | a in m.Keys :: a / 64 in lines;
    if forall k: nat | k < BLOCKS :: k in lines {
      AllBelow(lines, BLOCKS);
      FewImages(m.Keys, lines);
      assert false;
    }
    var k: nat :| k < BLOCKS && k !in lines;
    forall i | 0 <= i < PARAMETERS ensures Cell(64 * k, i) !in m {
      CellsOfBlock(k, i);
    }
    assert Allocatable(m, 64 * k);
  }

  // ---------- Along a run ----------

  predicate MakesCore(l: Label) { l.ArmChild? || l.BuildVm? }

  function CoresMade(ls: seq<Label>): nat
  {
    if ls == [] then 0 else CoresMade(ls[..|ls| - 1]) + if MakesCore(ls[|ls| - 1]) then 1 else 0
  }

  ghost predicate AtMost<K>(s: System<K>, k: nat)
  {
    forall a | a in s.spaces :: |s.spaces[a].blocks.Keys| <= k
  }

  lemma {:induction false} FewAdded(keys: set<Word>, added: seq<Word>, all: set<Word>)
    requires forall x | x in all :: x in keys || x in added
    ensures |all| <= |keys| + |added|
    decreases |added|
  {
    if added == [] {
      assert all <= keys && keys == all + (keys - all);
    } else {
      FewAdded(keys, added[1..], all - {added[0]});
    }
  }

  lemma ZeroBlockSize(m: Mem, b: Word)
    ensures |(m + ZeroBlock(b)).Keys| <= |m.Keys| + PARAMETERS
  {
    var cells := [Cell(b, 0), Cell(b, 1), Cell(b, 2), Cell(b, 3), Cell(b, 4), Cell(b, 5), Cell(b, 6), Cell(b, 7)];
    hide Cell;
    FewAdded(m.Keys, cells, (m + ZeroBlock(b)).Keys);
  }

  lemma ArmUses<K>(s: System<K>, s': System<K>, t: Word, block: Word, k: nat)
    requires DoArmChild(s, t, block) == Some(s') && AtMost(s, k)
    ensures AtMost(s', k + PARAMETERS)
  {
    ZeroBlockSize(BlocksOf(s, t), block);
    hide HasBlock, Params, InitChild, Allocatable, ZeroBlock, CloneTypeOf;
  }

  lemma BuildUses<K>(s: System<K>, s': System<K>, t: Word, vm: nat, block: Word, k: nat)
    requires DoBuildVm(s, t, vm, block) == Some(s') && AtMost(s, k)
    ensures AtMost(s', k + PARAMETERS)
  {
    ZeroBlockSize(BlocksOf(s, t), block);
    hide HasBlock, Params, InitChild, Allocatable, ZeroBlock;
  }

  lemma CoreUses<K>(env: N.Env<K>, s: System<K>, l: Label, s': System<K>, k: nat)
    requires Apply(env, s, l) == Some(s') && MakesCore(l) && AtMost(s, k)
    ensures AtMost(s', k + PARAMETERS)
  {
    hide DoArmChild, DoBuildVm, AtMost;
    match l {
      case ArmChild(t, block) => ArmUses(s, s', t, block, k);
      case BuildVm(t, vm, block) => BuildUses(s, s', t, vm, block, k);
    }
  }

  lemma PlainUsesNone<K>(env: N.Env<K>, s: System<K>, l: Label, s': System<K>, k: nat)
    requires Apply(env, s, l) == Some(s') && Plain(l) && AtMost(s, k)
    ensures AtMost(s', k)
  {
    hide Apply;
    PlainKeepsResources(env, s, l, s');
  }

  lemma GuestUsesNone<K>(env: N.Env<K>, s: System<K>, l: Label, s': System<K>, k: nat)
    requires Apply(env, s, l) == Some(s') && AtMost(s, k) && l.GuestOp?
    ensures AtMost(s', k)
  {
    hide HasBlock, Reach, EnterStub;
  }

  lemma CallUsesNone<K>(env: N.Env<K>, s: System<K>, l: Label, s': System<K>, k: nat)
    requires Apply(env, s, l) == Some(s') && AtMost(s, k)
    requires l.HostCall? || l.ForkFails? || l.ExitThread?
    ensures AtMost(s', k)
  {
    hide HasBlock, Params, CloneTypeOf, RequestOf;
  }

  lemma CloneUsesNone<K>(env: N.Env<K>, s: System<K>, l: Label, s': System<K>, k: nat)
    requires Apply(env, s, l) == Some(s') && AtMost(s, k)
    requires l.CloneThread? || l.ForkProcess?
    ensures AtMost(s', k)
  {
    hide HasBlock, Params, CloneTypeOf, RequestOf;
  }

  /** Only a new core uses memory for a block. */
  lemma OthersUseNone<K>(env: N.Env<K>, s: System<K>, l: Label, s': System<K>, k: nat)
    requires Apply(env, s, l) == Some(s') && AtMost(s, k) && !MakesCore(l)
    ensures AtMost(s', k)
  {
    hide Apply, AtMost;
    if Plain(l) {
      PlainUsesNone(env, s, l, s', k);
    } else if l.GuestOp? {
      GuestUsesNone(env, s, l, s', k);
    } else if l.CloneThread? || l.ForkProcess? {
      CloneUsesNone(env, s, l, s', k);
    } else {
      CallUsesNone(env, s, l, s', k);
    }
  }

  lemma {:induction false} UsedAlong<K>(env: N.Env<K>, b: Boot<K>, ls: seq<Label>, s': System<K>)
    requires Run(env, Start(b), ls) == Some(s')
    ensures AtMost(s', PARAMETERS * (1 + CoresMade(ls)))
    decreases |ls|
  {
    hide Apply, AtMost, MakesCore, Start;
    if ls == [] {
      StartUses(b);
    } else {
      var front, l := ls[..|ls| - 1], ls[|ls| - 1];
      var mid := Run(env, Start(b), front).value;
      UsedAlong(env, b, front, mid);
      if MakesCore(l) {
        CoreUses(env, mid, l, s', PARAMETERS * (1 + CoresMade(front)));
      } else {
        OthersUseNone(env, mid, l, s', PARAMETERS * (1 + CoresMade(front)));
      }
    }
  }

  lemma StartUses<K>(b: Boot<K>)
    ensures AtMost(Start(b), PARAMETERS)
  {
    ZeroBlockSize(map[], b.block);
    assert map[] + ZeroBlock(b.block) == ZeroBlock(b.block);
  }

  /** Until the tree has set up some two thousand million cores, no clone and no forked child lacks memory for
      a block, in any address space. */
  lemma MemoryLasts<K>(env: N.Env<K>, b: Boot<K>, ls: seq<Label>, s': System<K>, a: nat)
    requires Run(env, Start(b), ls) == Some(s') && a in s'.spaces
    requires PARAMETERS * (1 + CoresMade(ls)) < BLOCKS
    ensures BlockAvailable(s'.spaces[a].blocks)
  {
    hide Run, Start, BlockAvailable;
    UsedAlong(env, b, ls, s');
    assert |s'.spaces[a].blocks| == |s'.spaces[a].blocks.Keys|;
    RoomForABlock(s'.spaces[a].blocks);
  }
}
