/** The growable output buffer: three growth policies, and what they cost over any run of writes. */
module OutputBuffers {
  import opened Bytes

  const USIZE_MAX := 0xFFFF_FFFF_FFFF_FFFF
  const ISIZE_MAX := 0x7FFF_FFFF_FFFF_FFFF
  const MIN_BUFFER_SIZE := 4096
  const DEFAULT_BUFFER_SIZE := 65536

  datatype Growth = X4 | X2 | Fixed(step: nat)

  datatype BufferPolicy = BufferPolicy(initial: nat, growth: Growth)

  /** An initial capacity that can be allocated, and a step that makes progress. */
  predicate Usable(p: BufferPolicy) {
    p.initial <= ISIZE_MAX && (p.growth.Fixed? ==> 0 < p.growth.step <= ISIZE_MAX)
  }

  /** The policy chosen by the two environment variables; `size` is the first one, parsed. */
  function PolicyFrom(size: Option<nat>, growth: Option<string>): (p: BufferPolicy)
    ensures p.initial >= MIN_BUFFER_SIZE
    ensures size.None? || size.value <= ISIZE_MAX ==> Usable(p)
  {
    BufferPolicy(
      if size.Some? && size.value >= MIN_BUFFER_SIZE then size.value else DEFAULT_BUFFER_SIZE,
      match growth
      case Some(g) => if g == "x2" || g == "X2" then X2 else if g == "fixed32k" then Fixed(32 * 1024) else X4
      case None => X4)
  }

  /**
   * The choice in full: a size counts from 4096 bytes on and is 65536 otherwise; three words
   * choose doubling and steps of 32768 bytes, everything else quadrupling.
   */
  lemma PolicyChoices(size: Option<nat>, growth: Option<string>)
    ensures var p := PolicyFrom(size, growth);
            && (size.Some? && size.value >= 4096 ==> p.initial == size.value)
            && (size.None? || size.value < 4096 ==> p.initial == 65536)
            && (growth == Some("x2") || growth == Some("X2") ==> p.growth == X2)
            && (growth == Some("fixed32k") ==> p.growth == Fixed(32768))
            && (growth !in [Some("x2"), Some("X2"), Some("fixed32k")] ==> p.growth == X4)
  {
    assert "x2"[0] == 'x' && "X2"[0] == 'X' && "fixed32k"[0] == 'f';
  }

  /** `copied` counts the bytes moved by reallocations, `moves` the reallocations. */
  datatype Buffer = Buffer(data: seq<byte>, cap: nat, copied: nat, moves: nat)

  function Fresh(p: BufferPolicy): Buffer {
    Buffer([], p.initial, 0, 0)
  }

  function Max(a: nat, b: nat): nat {
    if a >= b then a else b
  }

  function Saturate(n: nat): nat {
    if n <= USIZE_MAX then n else USIZE_MAX
  }

  /** Steps added until the need is met. */
  function FixedCap(cap: nat, step: nat, need: nat): (r: nat)
    requires step > 0 && need <= USIZE_MAX
    ensures r >= cap && r >= need
    ensures cap < need ==> r < need + step
    decreases need - cap
  {
    if cap < need then FixedCap(Saturate(cap + step), step, need) else cap
  }

  function NewCap(p: BufferPolicy, cap: nat, need: nat): (r: nat)
    requires Usable(p) && need <= USIZE_MAX
    ensures r >= need
  {
    match p.growth
    case X4 => Max(Saturate(cap * 4), need + p.initial)
    case X2 => Max(Saturate(cap * 2), need + p.initial)
    case Fixed(step) => FixedCap(cap, step, need)
  }

  /** The capacity that `reserve` allocates for a wanted one: it at least doubles the old one. */
  function Reserved(cap: nat, wanted: nat): (r: nat)
    ensures r >= wanted && r >= 2 * cap && (r == wanted || r == 2 * cap)
  {
    Max(2 * cap, wanted)
  }

  lemma OneStepLess(k: nat, step: nat)
    requires k > 0
    ensures k * step == step + (k - 1) * step && (k - 1) * step >= 0
  {
  }

  /** Steps reach the least capacity in whole steps that meets the need, up to the end of the address space. */
  lemma {:induction false} FixedIsLeast(cap: nat, step: nat, need: nat, k: nat, reached: nat)
    requires step > 0 && reached == cap + k * step && reached <= USIZE_MAX
    requires reached >= need && (k == 0 || reached - step < need)
    ensures FixedCap(cap, step, need) == reached
    decreases k
  {
    if k > 0 {
      OneStepLess(k, step);
      FixedIsLeast(cap + step, step, need, k - 1, reached);
    }
  }

  /** The two factors ask for at least a doubling, so they get exactly what they ask for. */
  lemma FactorsGetWhatTheyAsk(p: BufferPolicy, cap: nat, need: nat)
    requires Usable(p) && !p.growth.Fixed? && cap <= ISIZE_MAX && need <= USIZE_MAX
    ensures Reserved(cap, NewCap(p, cap, need)) == NewCap(p, cap, need)
  {
  }

  /**
   * One write. A capacity that exceeds the address space makes the reservation panic, which
   * the caller catches: then nothing is written.
   */
  function Append(p: BufferPolicy, b: Buffer, data: seq<byte>): Option<Buffer>
    requires Usable(p)
  {
    var need := |b.data| + |data|;
    if need <= b.cap then Some(b.(data := b.data + data))
    else if need > USIZE_MAX || Reserved(b.cap, NewCap(p, b.cap, need)) > ISIZE_MAX then None
    else Some(Buffer(b.data + data, Reserved(b.cap, NewCap(p, b.cap, need)), b.copied + |b.data|, b.moves + 1))
  }

  // ---------------------------------------------------------------- amortised cost

  function Pow(base: nat, exponent: nat): nat {
    if exponent == 0 then 1 else base * Pow(base, exponent - 1)
  }

  ghost predicate Quadrupling(p: BufferPolicy, b: Buffer) {
    && b.cap <= Max(4 * |b.data|, |b.data| + p.initial)
    && 3 * b.copied <= b.cap
    && b.cap >= p.initial * Pow(4, b.moves)
  }

  /** Until the first move the capacity is the initial one; `slack` is what a move may add to the need. */
  ghost predicate Doubling(p: BufferPolicy, b: Buffer, slack: nat) {
    && b.cap <= (if b.moves == 0 then p.initial else Max(2 * |b.data|, |b.data| + slack))
    && b.copied <= b.cap
    && b.cap >= p.initial * Pow(2, b.moves)
  }

  /** Capacity and cost bounds; they hold of every reachable buffer. */
  ghost predicate Economical(p: BufferPolicy, b: Buffer) {
    && |b.data| <= b.cap <= ISIZE_MAX
    && match p.growth
       case X4 => Quadrupling(p, b)
       case X2 => Doubling(p, b, p.initial)
       case Fixed(step) => Doubling(p, b, step)
  }

  lemma FreshIsEconomical(p: BufferPolicy)
    requires Usable(p)
    ensures Economical(p, Fresh(p))
  {
    assert p.initial * 1 == p.initial;
  }

  /** Multiplying a capacity by the factor pays for one more power of it. */
  lemma PowStep(initial: nat, f: nat, k: nat, cap: nat)
    requires cap >= initial * Pow(f, k)
    ensures f * cap >= initial * Pow(f, k + 1)
  {
    MulMono(f, initial * Pow(f, k), cap);
    Swap(f, initial, Pow(f, k));
  }

  lemma MulMono(f: nat, a: nat, b: nat)
    requires a <= b
    ensures f * a <= f * b
  {
  }

  lemma Swap(f: nat, a: nat, b: nat)
    ensures f * (a * b) == a * (f * b)
  {
  }

  lemma QuadruplingStep(p: BufferPolicy, b: Buffer, data: seq<byte>)
    requires Usable(p) && p.growth.X4?
    requires Economical(p, b) && Append(p, b, data).Some?
    ensures Economical(p, Append(p, b, data).value)
  {
    PowStep(p.initial, 4, b.moves, b.cap);
    hide Pow;
  }

  lemma DoublingStep(p: BufferPolicy, b: Buffer, data: seq<byte>)
    requires Usable(p) && !p.growth.X4?
    requires Economical(p, b) && Append(p, b, data).Some?
    ensures Economical(p, Append(p, b, data).value)
  {
    PowStep(p.initial, 2, b.moves, b.cap);
    hide Pow, FixedCap;
  }

  /** Every accepted write keeps the bounds. */
  lemma AppendIsEconomical(p: BufferPolicy, b: Buffer, data: seq<byte>)
    requires Usable(p) && Economical(p, b) && Append(p, b, data).Some?
    ensures Economical(p, Append(p, b, data).value)
  {
    if p.growth.X4? {
      QuadruplingStep(p, b, data);
    } else {
      DoublingStep(p, b, data);
    }
  }

  /** Sizes for which no reservation fails. */
  predicate Affordable(p: BufferPolicy, total: nat) {
    match p.growth
    case X4 => 4 * total <= ISIZE_MAX && total + p.initial <= ISIZE_MAX
    case X2 => 2 * total <= ISIZE_MAX && total + p.initial <= ISIZE_MAX
    case Fixed(step) => 2 * total <= ISIZE_MAX && total + step <= ISIZE_MAX
  }

  /** A write is accepted whenever the total output stays affordable. */
  lemma AffordableWrite(p: BufferPolicy, b: Buffer, data: seq<byte>)
    requires Usable(p) && Economical(p, b) && Affordable(p, |b.data| + |data|)
    ensures Append(p, b, data).Some?
  {
  }
}
