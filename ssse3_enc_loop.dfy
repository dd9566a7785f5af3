/**
 * enc_loop_ssse3 (lib/arch/ssse3/enc_loop_asm.c): the round accounting,
 * the unrolled 36x/18x/9x/6x blocks and the jump into 0..5 single rounds.
 *
 * The input is the byte sequence `src`, of which the `slen` bytes from
 * index `s` may be read; the output buffer is the array `dst`, written from
 * index `o`.  A round loads 16 bytes (lddqu) and stores 16 (movdqu).  The
 * register a round lives in between its load and its store is abstracted:
 * a block keeps the loaded registers by round number.
 */
module Ssse3EncLoop {
  import opened Wrappers
  import opened Sse
  import opened Rfc4648
  import opened Ssse3Lanes

  /** The memory operations of an unrolled block, by round offset within the block. */
  datatype Op = Load(round: nat) | Store(round: nat)

  /** BASE64_SSSE3_ROUND_3_INIT: preload the first three rounds. */
  function Init(): seq<Op>
  {
    [Load(0), Load(1), Load(2)]
  }

  /** BASE64_SSSE3_ROUND_3(r): load rounds r+3..r+5 interleaved with storing rounds r..r+2. */
  function Round3(r: nat): seq<Op>
  {
    [Load(r + 3), Store(r), Load(r + 4), Store(r + 1), Load(r + 5), Store(r + 2)]
  }

  /** BASE64_SSSE3_ROUND_3_END(r): store the preloaded rounds r+3..r+5. */
  function End(r: nat): seq<Op>
  {
    [Store(r + 3), Store(r + 4), Store(r + 5)]
  }

  /** m daisy-chained ROUND_3 macros starting at round r (the A and B variants differ only in registers). */
  function Chain(r: nat, m: nat): seq<Op>
    decreases m
  {
    if m == 0 then [] else Round3(r) + Chain(r + 3, m - 1)
  }

  /**
   * A block of n ROUND_3 macros: INIT, ROUND_3(0), ROUND_3(3), ...,
   * ROUND_3(3n-3), END(3n-3), the last two being ROUND_3_*_LAST.
   * n = 11, 5, 2, 1 give the 36x, 18x, 9x and 6x blocks.
   */
  function Unrolled(n: nat): seq<Op>
    requires n >= 1
  {
    Init() + Chain(0, n) + End(3 * (n - 1))
  }

  /** BASE64_SSSE3_ROUND: one self-contained round. */
  function Single(): seq<Op>
  {
    [Load(0), Store(0)]
  }

  /** The block the asm runs for n ROUND_3 macros, or a single BASE64_SSSE3_ROUND for n = 0. */
  function Block(n: nat): seq<Op>
  {
    if n == 0 then Single() else Unrolled(n)
  }

  /** The rounds of Block(n). */
  function BlockRounds(n: nat): nat
  {
    if n == 0 then 1 else 3 * n + 3
  }

  /** How many rounds of a block have been loaded and how many stored. */
  datatype Progress = Progress(loads: nat, stores: nat)

  /**
   * Replays a block of k rounds from the given progress: None as soon as an
   * operation is out of order (a load that is not the next round below k,
   * a store that is not the next round or whose round is not loaded yet).
   */
  function Replay(ops: seq<Op>, p: Progress, k: nat): Option<Progress>
  {
    if ops == [] then Some(p)
    else match ops[0]
      case Load(i) => if i == p.loads && i < k then Replay(ops[1..], p.(loads := i + 1), k) else None
      case Store(i) => if i == p.stores && i < p.loads then Replay(ops[1..], p.(stores := i + 1), k) else None
  }

  /**
   * A well-formed block of k rounds: loads rounds 0..k-1 in order, stores
   * rounds 0..k-1 in order, each only after its load, and nothing else.
   */
  predicate Schedules(ops: seq<Op>, k: nat)
  {
    Replay(ops, Progress(0, 0), k) == Some(Progress(k, k))
  }

  /** Replaying a concatenation replays the parts one after the other. */
  lemma {:induction false} ReplayAppend(a: seq<Op>, b: seq<Op>, p: Progress, k: nat)
    ensures Replay(a + b, p, k) == match Replay(a, p, k) case None => None case Some(q) => Replay(b, q, k)
    decreases |a|
  {
    if a != [] {
      assert (a + b)[0] == a[0] && (a + b)[1..] == a[1..] + b;
      match a[0]
      case Load(i) => ReplayAppend(a[1..], b, p.(loads := i + 1), k);
      case Store(i) => ReplayAppend(a[1..], b, p.(stores := i + 1), k);
    } else {
      assert a + b == b;
    }
  }

  lemma ReplayInit(k: nat)
    requires 3 <= k
    ensures Replay(Init(), Progress(0, 0), k) == Some(Progress(3, 0))
  {
    var o0 := Init();
    var o1 := o0[1..];
    var o2 := o1[1..];
    assert o1 == [Load(1), Load(2)] && o2 == [Load(2)] && o2[1..] == [];
    assert Replay(o2, Progress(2, 0), k) == Some(Progress(3, 0));
    assert Replay(o1, Progress(1, 0), k) == Some(Progress(3, 0));
  }

  lemma ReplayRound3(r: nat, k: nat)
    requires r + 6 <= k
    ensures Replay(Round3(r), Progress(r + 3, r), k) == Some(Progress(r + 6, r + 3))
  {
    var o0 := Round3(r);
    var o1 := o0[1..];
    var o2 := o1[1..];
    var o3 := o2[1..];
    var o4 := o3[1..];
    var o5 := o4[1..];
    assert o1 == [Store(r), Load(r + 4), Store(r + 1), Load(r + 5), Store(r + 2)];
    assert o2 == [Load(r + 4), Store(r + 1), Load(r + 5), Store(r + 2)];
    assert o3 == [Store(r + 1), Load(r + 5), Store(r + 2)];
    assert o4 == [Load(r + 5), Store(r + 2)];
    assert o5 == [Store(r + 2)] && o5[1..] == [];
    var q := Some(Progress(r + 6, r + 3));
    assert Replay(o5, Progress(r + 6, r + 2), k) == q;
    assert Replay(o4, Progress(r + 5, r + 2), k) == q;
    assert Replay(o3, Progress(r + 5, r + 1), k) == q;
    assert Replay(o2, Progress(r + 4, r + 1), k) == q;
    assert Replay(o1, Progress(r + 4, r), k) == q;
  }

  lemma ReplayEnd(r: nat, k: nat)
    requires r + 6 == k
    ensures Replay(End(r), Progress(k, r + 3), k) == Some(Progress(k, k))
  {
    var o0 := End(r);
    var o1 := o0[1..];
    var o2 := o1[1..];
    assert o1 == [Store(r + 4), Store(r + 5)] && o2 == [Store(r + 5)] && o2[1..] == [];
    assert Replay(o2, Progress(k, r + 5), k) == Some(Progress(k, k));
    assert Replay(o1, Progress(k, r + 4), k) == Some(Progress(k, k));
  }

  /** A chain of m ROUND_3 macros from round r advances both counts by 3m. */
  lemma {:induction false} ReplayChain(r: nat, m: nat, k: nat)
    requires r + 3 * m + 3 <= k
    ensures Replay(Chain(r, m), Progress(r + 3, r), k) == Some(Progress(r + 3 * m + 3, r + 3 * m))
    decreases m
  {
    if m > 0 {
      ReplayRound3(r, k);
      ReplayAppend(Round3(r), Chain(r + 3, m - 1), Progress(r + 3, r), k);
      ReplayChain(r + 3, m - 1, k);
    }
  }

  /** Every unrolled block stores each of its 3n+3 rounds exactly once, in order, after loading it. */
  lemma UnrolledSchedules(n: nat)
    requires n >= 1
    ensures Schedules(Unrolled(n), 3 * n + 3)
  {
    var k := 3 * n + 3;
    ReplayInit(k);
    ReplayChain(0, n, k);
    ReplayEnd(3 * (n - 1), k);
    ReplayAppend(Init(), Chain(0, n), Progress(0, 0), k);
    ReplayAppend(Init() + Chain(0, n), End(3 * (n - 1)), Progress(0, 0), k);
  }

  /** A single round loads and stores round 0. */
  lemma SingleSchedules()
    ensures Schedules(Single(), 1)
  {
    assert Single()[1..] == [Store(0)] && Single()[1..][1..] == [];
  }

  /** Every block stores each of its rounds exactly once, in order, after loading it. */
  lemma BlockSchedules(n: nat)
    ensures Schedules(Block(n), BlockRounds(n))
  {
    if n == 0 {
      SingleSchedules();
    } else {
      UnrolledSchedules(n);
    }
  }

  /** `buf` with the bytes from `at` on replaced by `data`. */
  function Splice(buf: seq<bv8>, at: nat, data: seq<bv8>): (r: seq<bv8>)
    requires at + |data| <= |buf|
    ensures |r| == |buf|
  {
    buf[..at] + data + buf[at + |data|..]
  }

  /** Writing y right after x is writing x + y. */
  lemma SpliceAdjacent(buf: seq<bv8>, at: nat, x: seq<bv8>, y: seq<bv8>)
    requires at + |x| + |y| <= |buf|
    ensures Splice(Splice(buf, at, x), at + |x|, y) == Splice(buf, at, x + y)
  {
    var l := Splice(Splice(buf, at, x), at + |x|, y);
    var r := Splice(buf, at, x + y);
    forall i | 0 <= i < |buf|
      ensures l[i] == r[i]
    {
      if at <= i < at + |x| {
        assert r[i] == r[at..at + |x| + |y|][i - at];
      } else if at + |x| <= i < at + |x| + |y| {
        assert l[i] == l[at + |x|..at + |x| + |y|][i - at - |x|];
        assert r[i] == r[at..at + |x| + |y|][i - at];
      }
    }
  }

  /** The Base64 encoding of the n 12-byte rounds from src[at..]. */
  function Encoded(src: seq<bv8>, at: nat, n: nat): (r: seq<bv8>)
    requires at + 12 * n <= |src|
    ensures |r| == 16 * n
  {
    var x := src[at..at + 12 * n];
    assert |x| == 3 * (4 * n);
    Encode(x)
  }

  /** Encoding d rounds and then k more is encoding d + k rounds. */
  lemma EncodedAppend(src: seq<bv8>, at: nat, d: nat, k: nat)
    requires at + 12 * (d + k) <= |src|
    ensures Encoded(src, at, d + k) == Encoded(src, at, d) + Encoded(src, at + 12 * d, k)
  {
    var x, y := src[at..at + 12 * d], src[at + 12 * d..at + 12 * d + 12 * k];
    SliceSplit(src, at, at + 12 * d, at + 12 * d + 12 * k);
    WholeGroups(d);
    WholeGroups(k);
    EncodeAppend(x, y);
  }

  /** Adjacent slices concatenate. */
  lemma SliceSplit(src: seq<bv8>, a: nat, b: nat, c: nat)
    requires a <= b <= c <= |src|
    ensures src[a..b] + src[b..c] == src[a..c]
  {
  }

  /** A round is four whole 24-bit groups. */
  lemma WholeGroups(n: nat)
    ensures (12 * n) % 3 == 0
  {
    assert 12 * n == 3 * (4 * n);
  }

  /** Writing d encoded rounds and then k more, right after them, writes d + k rounds. */
  lemma Advance(buf: seq<bv8>, o: nat, src: seq<bv8>, s: nat, d: nat, k: nat)
    requires s + 12 * (d + k) <= |src| && o + 16 * (d + k) <= |buf|
    ensures Splice(Splice(buf, o, Encoded(src, s, d)), o + 16 * d, Encoded(src, s + 12 * d, k))
         == Splice(buf, o, Encoded(src, s, d + k))
  {
    EncodedAppend(src, s, d, k);
    SpliceAdjacent(buf, o, Encoded(src, s, d), Encoded(src, s + 12 * d, k));
  }

  /** In a replay that completes, a load at t is of the next round, below k. */
  lemma ReplayLoad(ops: seq<Op>, t: nat, p: Progress, k: nat)
    requires t < |ops| && ops[t].Load?
    requires Replay(ops[t..], p, k) == Some(Progress(k, k))
    ensures ops[t].round == p.loads < k
    ensures Replay(ops[t + 1..], p.(loads := p.loads + 1), k) == Some(Progress(k, k))
  {
    assert ops[t..][0] == ops[t] && ops[t..][1..] == ops[t + 1..];
  }

  /** In a replay that completes, a store at t is of the next round, already loaded. */
  lemma ReplayStore(ops: seq<Op>, t: nat, p: Progress, k: nat)
    requires t < |ops| && ops[t].Store?
    requires Replay(ops[t..], p, k) == Some(Progress(k, k))
    ensures ops[t].round == p.stores < p.loads
    ensures Replay(ops[t + 1..], p.(stores := p.stores + 1), k) == Some(Progress(k, k))
  {
    assert ops[t..][0] == ops[t] && ops[t..][1..] == ops[t + 1..];
  }

  /** Storing the encoded load of round i after rounds 0..i-1 extends the encoded prefix by one round. */
  lemma StoreRound(buf: seq<bv8>, bo: nat, src: seq<bv8>, bs: nat, end: nat, i: nat, block: M128)
    requires bs + 12 * i + 16 <= end <= |src| && bo + 16 * (i + 1) <= |buf|
    requires block == Lddqu(src, bs + 12 * i, end)
    ensures Splice(Splice(buf, bo, Encoded(src, bs, i)), bo + 16 * i, Encode(block[..12]))
         == Splice(buf, bo, Encoded(src, bs, i + 1))
  {
    assert block[..12] == src[bs + 12 * i..bs + 12 * i + 12];
    Advance(buf, bo, src, bs, i, 1);
  }

  /** lddqu: the 16 bytes at `at`, all of them before `end`, the end of the readable input. */
  function Lddqu(src: seq<bv8>, at: nat, end: nat): M128
    requires at + 16 <= end <= |src|
  {
    src[at..at + 16]
  }

  /** movdqu: store a register's 16 bytes at `at`. */
  method Movdqu(dst: array<bv8>, at: nat, v: M128)
    requires at + 16 <= dst.Length
    modifies dst
    ensures dst[..] == Splice(old(dst[..]), at, v)
  {
    forall i | 0 <= i < 16 {
      dst[at + i] := v[i];
    }
    assert dst[..] == Splice(old(dst[..]), at, v) by {
      var r := Splice(old(dst[..]), at, v);
      forall i | 0 <= i < dst.Length
        ensures dst[i] == r[i]
      {
        if at <= i < at + 16 {
          assert r[i] == r[at..at + 16][i - at];
        }
      }
    }
  }

  /**
   * The state of a block of k rounds at src[bs..] and dst[bo..] before
   * operation t: the rest of the schedule completes from the rounds loaded
   * and stored so far, each register holds its round's load, and the
   * stored rounds are written.
   */
  ghost predicate Running(src: seq<bv8>, end: nat, bs: nat, buf: seq<bv8>, bo: nat, k: nat, ops: seq<Op>,
                          t: nat, regs: seq<M128>, stores: nat, out: seq<bv8>)
  {
    t <= |ops| && stores <= |regs| <= k
    && bs + 12 * k + 4 <= end <= |src| && bo + 16 * k <= |buf| == |out|
    && Replay(ops[t..], Progress(|regs|, stores), k) == Some(Progress(k, k))
    && (forall i | 0 <= i < |regs| :: regs[i] == Lddqu(src, bs + 12 * i, end))
    && out == Splice(buf, bo, Encoded(src, bs, stores))
  }

  /** Operation t is Load(i): lddqu of round i into a fresh register. */
  method ExecLoad(src: seq<bv8>, end: nat, bs: nat, ghost buf: seq<bv8>, bo: nat, k: nat, ops: seq<Op>,
                  t: nat, regs: seq<M128>, stores: nat, ghost out: seq<bv8>)
    returns (regs': seq<M128>)
    requires t < |ops| && ops[t].Load?
    requires Running(src, end, bs, buf, bo, k, ops, t, regs, stores, out)
    ensures Running(src, end, bs, buf, bo, k, ops, t + 1, regs', stores, out)
  {
    ReplayLoad(ops, t, Progress(|regs|, stores), k);
    regs' := regs + [Lddqu(src, bs + 12 * ops[t].round, end)];
  }

  /** Operation t is Store(i): SHUF and TRAN on round i's register, then movdqu. */
  method ExecStore(src: seq<bv8>, end: nat, bs: nat, ghost buf: seq<bv8>, dst: array<bv8>, bo: nat, k: nat,
                   ops: seq<Op>, t: nat, regs: seq<M128>, stores: nat)
    returns (stores': nat)
    requires t < |ops| && ops[t].Store?
    requires Running(src, end, bs, buf, bo, k, ops, t, regs, stores, dst[..])
    modifies dst
    ensures Running(src, end, bs, buf, bo, k, ops, t + 1, regs, stores', dst[..])
  {
    ReplayStore(ops, t, Progress(|regs|, stores), k);
    var i := ops[t].round;
    StoreStep(src, end, bs, dst, bo, i, regs[i], buf);
    stores' := stores + 1;
  }

  /** Round i's encoding stored right after rounds 0..i-1. */
  method StoreStep(src: seq<bv8>, end: nat, bs: nat, dst: array<bv8>, bo: nat, i: nat, block: M128,
                   ghost buf: seq<bv8>)
    requires bs + 12 * i + 16 <= end <= |src| && bo + 16 * (i + 1) <= |buf| == dst.Length
    requires block == Lddqu(src, bs + 12 * i, end)
    requires dst[..] == Splice(buf, bo, Encoded(src, bs, i))
    modifies dst
    ensures dst[..] == Splice(buf, bo, Encoded(src, bs, i + 1))
  {
    var out := ShufTran(block);
    StoreRound(buf, bo, src, bs, end, i, block);
    Movdqu(dst, bo + 16 * i, out);
  }

  /**
   * Runs an unrolled block of k rounds at src[bs..] and dst[bo..], one
   * operation of its schedule at a time.  The block encodes its 12k bytes
   * into 16k bytes, and no load reaches `end`.
   */
  method RunBlock(src: seq<bv8>, end: nat, bs: nat, dst: array<bv8>, bo: nat, k: nat, ops: seq<Op>)
    requires Schedules(ops, k)
    requires bs + 12 * k + 4 <= end <= |src|
    requires bo + 16 * k <= dst.Length
    modifies dst
    ensures dst[..] == Splice(old(dst[..]), bo, Encoded(src, bs, k))
  {
    ghost var buf := dst[..];
    var regs: seq<M128> := [];
    var stores: nat := 0;
    assert src[bs..bs] == [] && ops[0..] == ops;
    for t := 0 to |ops|
      invariant Running(src, end, bs, buf, bo, k, ops, t, regs, stores, dst[..])
    {
      match ops[t]
      case Load(_) =>
        regs := ExecLoad(src, end, bs, buf, bo, k, ops, t, regs, stores, dst[..]);
      case Store(_) =>
        stores := ExecStore(src, end, bs, buf, dst, bo, k, ops, t, regs, stores);
    }
    assert ops[|ops|..] == [];
  }

  /**
   * The number of rounds a call runs when slen >= 16: four input bytes are
   * held back, so it is the largest count whose last 16-byte load, at
   * 12 * (rounds - 1), still ends inside the input.
   */
  function Rounds(slen: nat): (r: nat)
    requires slen >= 16
    ensures r >= 1
    ensures 12 * (r - 1) + 16 <= slen < 12 * r + 16
  {
    (slen - 4) / 12
  }

  /** The jump-table dispatch at label 55: the label entered for the remaining rounds. */
  function TailEntry(rounds: nat): (e: nat)
    ensures e <= 5
    ensures rounds <= 5 ==> e == rounds
  {
    if rounds > 3 then (if rounds == 4 then 4 else 5)
    else if rounds == 3 then 3
    else if rounds > 1 then 2
    else if rounds == 1 then 1
    else 0
  }

  /**
   * The encoding of `total` rounds from src[s..] into dst[o..] is under
   * way: every load of those rounds ends by `end` and every store fits the
   * buffer; the first `done` rounds are written at dst[o..], the rest of the
   * buffer is as it was (`buf`), and the pointers sp and op are just past them.
   */
  ghost predicate Encoding(src: seq<bv8>, end: nat, s: nat, buf: seq<bv8>, o: nat, total: nat,
                           done: nat, sp: nat, op: nat, out: seq<bv8>)
  {
    s + 12 * total + 4 <= end <= |src| && o + 16 * total <= |buf| && done <= total
    && sp == s + 12 * done && op == o + 16 * done && out == Splice(buf, o, Encoded(src, s, done))
  }

  /**
   * A block of k rounds at the current pointers, then the pointer updates
   * (add $(12 * k), src; add $(16 * k), dst): the encoding grows by k rounds.
   */
  method Continue(src: seq<bv8>, end: nat, sp: nat, dst: array<bv8>, op: nat, n: nat,
                  ghost s: nat, ghost buf: seq<bv8>, ghost o: nat, ghost total: nat, ghost done: nat)
    returns (sp': nat, op': nat)
    requires Encoding(src, end, s, buf, o, total, done, sp, op, dst[..]) && done + BlockRounds(n) <= total
    modifies dst
    ensures Encoding(src, end, s, buf, o, total, done + BlockRounds(n), sp', op', dst[..])
  {
    var k := BlockRounds(n);
    BlockSchedules(n);
    ghost var before := dst[..];
    RunBlock(src, end, sp, dst, op, k, Block(n));
    sp', op' := sp + 12 * k, op + 16 * k;
    EncodingGrows(src, end, s, buf, o, total, done, k, sp, op, before, dst[..]);
  }

  /** k more rounds written at the output pointer extend the encoding by k rounds. */
  lemma EncodingGrows(src: seq<bv8>, end: nat, s: nat, buf: seq<bv8>, o: nat, total: nat, done: nat, k: nat,
                      sp: nat, op: nat, out: seq<bv8>, out': seq<bv8>)
    requires Encoding(src, end, s, buf, o, total, done, sp, op, out) && done + k <= total
    requires op + 16 * k <= |out|
    requires out' == Splice(out, op, Encoded(src, sp, k))
    ensures Encoding(src, end, s, buf, o, total, done + k, sp + 12 * k, op + 16 * k, out')
  {
    Advance(buf, o, src, s, done, k);
  }

  /**
   * Labels 18:, 9: and 6: of the asm statement: when at least
   * BlockRounds(n) rounds remain, one unrolled block of n ROUND_3 macros,
   * then `sub $k, rounds` and the pointer updates; otherwise nothing.
   */
  method MaybeBlock(src: seq<bv8>, end: nat, sp: nat, dst: array<bv8>, op: nat, rounds: nat, n: nat,
                    ghost s: nat, ghost buf: seq<bv8>, ghost o: nat, ghost total: nat, ghost done: nat)
    returns (sp': nat, op': nat, rounds': nat, ghost done': nat)
    requires Encoding(src, end, s, buf, o, total, done, sp, op, dst[..]) && done + rounds == total
    modifies dst
    ensures Encoding(src, end, s, buf, o, total, done', sp', op', dst[..]) && done' + rounds' == total
    ensures rounds' == if rounds >= BlockRounds(n) then rounds - BlockRounds(n) else rounds
  {
    if rounds >= BlockRounds(n) {
      sp', op' := Continue(src, end, sp, dst, op, n, s, buf, o, total, done);
      rounds', done' := rounds - BlockRounds(n), done + BlockRounds(n);
    } else {
      sp', op', rounds', done' := sp, op, rounds, done;
    }
  }

  /**
   * Labels 18, 9, 6 and 55 of the asm statement: at most one 18x, one 9x
   * and one 6x block, then a jump into the chain of single rounds.  All
   * `rounds` rounds are encoded.
   */
  method Dispatch(src: seq<bv8>, end: nat, sp: nat, dst: array<bv8>, op: nat, rounds: nat,
                  ghost s: nat, ghost buf: seq<bv8>, ghost o: nat, ghost total: nat, ghost done: nat)
    returns (sp': nat, op': nat)
    requires rounds < 36
    requires Encoding(src, end, s, buf, o, total, done, sp, op, dst[..]) && done + rounds == total
    modifies dst
    ensures Encoding(src, end, s, buf, o, total, total, sp', op', dst[..])
  {
    var rounds := rounds;
    ghost var d := done;
    sp', op', rounds, d := MaybeBlock(src, end, sp, dst, op, rounds, 5, s, buf, o, total, d);
    sp', op', rounds, d := MaybeBlock(src, end, sp', dst, op', rounds, 2, s, buf, o, total, d);
    sp', op', rounds, d := MaybeBlock(src, end, sp', dst, op', rounds, 1, s, buf, o, total, d);
    var entry := TailEntry(rounds);
    sp', op' := FallThrough(src, end, sp', dst, op', entry, s, buf, o, total, d);
  }

  /**
   * Entering the chain 5:, 4:, ..., 1:, 0: at label `at`: each label runs one
   * BASE64_SSSE3_ROUND with its pointer updates and falls through to the
   * next, and label 0 ends the asm statement.
   */
  method FallThrough(src: seq<bv8>, end: nat, sp: nat, dst: array<bv8>, op: nat, at: nat,
                     ghost s: nat, ghost buf: seq<bv8>, ghost o: nat, ghost total: nat, ghost done: nat)
    returns (sp': nat, op': nat)
    requires Encoding(src, end, s, buf, o, total, done, sp, op, dst[..]) && done + at == total
    modifies dst
    ensures Encoding(src, end, s, buf, o, total, total, sp', op', dst[..])
    decreases at
  {
    if at > 0 {
      sp', op' := Continue(src, end, sp, dst, op, 0, s, buf, o, total, done);
      sp', op' := FallThrough(src, end, sp', dst, op', at - 1, s, buf, o, total, done + 1);
    } else {
      sp', op' := sp, op;
    }
  }

  /**
   * enc_loop_ssse3.  Below 16 input bytes nothing changes.  Otherwise
   * Rounds(slen) rounds run: *s and *o advance by 12 and 16 per round,
   * *slen and *olen change by the same amounts, and dst[o..] receives the
   * Base64 encoding of the 12 * Rounds(slen) bytes consumed.  Every load
   * lies within src[s..s + slen] (the `end` bound of Lddqu).
   */
  method EncLoopSsse3(src: seq<bv8>, s: nat, slen: nat, dst: array<bv8>, o: nat, olen: nat)
    returns (s': nat, slen': nat, o': nat, olen': nat)
    requires s + slen <= |src| && o <= dst.Length
    requires slen >= 16 ==> o + 16 * Rounds(slen) <= dst.Length
    modifies dst
    ensures slen < 16 ==> s' == s && slen' == slen && o' == o && olen' == olen && dst[..] == old(dst[..])
    ensures slen >= 16 ==>
      var r := Rounds(slen);
      s' == s + 12 * r && slen' == slen - 12 * r && o' == o + 16 * r && olen' == olen + 16 * r
      && dst[..] == Splice(old(dst[..]), o, Encoded(src, s, r))
  {
    if slen < 16 {
      return s, slen, o, olen;
    }
    ghost var buf := dst[..];
    var end := s + slen;
    var rounds := Rounds(slen);
    ghost var total := rounds;
    slen' := slen - rounds * 12;
    olen' := olen + rounds * 16;
    var loops := rounds / 36;
    rounds := rounds % 36;
    s', o' := s, o;
    ghost var done := 0;
    assert src[s..s] == [];
    while loops > 0
      invariant done + 36 * loops + rounds == total && rounds < 36
      invariant Encoding(src, end, s, buf, o, total, done, s', o', dst[..])
    {
      s', o' := Continue(src, end, s', dst, o', 11, s, buf, o, total, done);
      done := done + 36;
      loops := loops - 1;
    }
    s', o' := Dispatch(src, end, s', dst, o', rounds, s, buf, o, total, done);
  }
}
